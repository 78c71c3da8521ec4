/** The frame draft of the user interface and its three-way merge into the shared configurations. */
module UiDraft {
  import opened Names

  /** The 37 fields the merge covers: everything in a configuration but its identifier, compared as values. */
  const MERGED_FIELDS := 37

  type Fields = s: seq<string> | |s| == 37 witness seq(37, _ => "")

  datatype Config = Config(configId: string, fields: Fields)

  /** The index of a profile in the shared map. */
  datatype Slot = Slot(index: int)

  type Configs = map<Slot, Config>

  datatype Snapshot = Snapshot(configs: Configs, selectedIndex: Slot)

  ghost predicate UniqueIds(m: Configs)
  {
    forall i, j | i in m && j in m && m[i].configId == m[j].configId :: i == j
  }

  ghost predicate HasId(m: Configs, id: string) { exists i :: i in m && m[i].configId == id }

  // ---- field by field ----

  function Merged(current: Config, baseline: Config, edited: Config): Config
  {
    var fields := seq(37, i requires 0 <= i < 37 =>
      if edited.fields[i] != baseline.fields[i] then edited.fields[i] else current.fields[i]);
    Config(current.configId, fields)
  }

  method MergeFields(current: Config, baseline: Config, edited: Config) returns (r: Config)
    ensures r == Merged(current, baseline, edited)
  {
    r := current;
    for i := 0 to MERGED_FIELDS
      invariant r.configId == current.configId
      invariant forall k | 0 <= k < i :: r.fields[k] == Merged(current, baseline, edited).fields[k]
      invariant forall k | i <= k < 37 :: r.fields[k] == current.fields[k]
    {
      if edited.fields[i] != baseline.fields[i] { r := r.(fields := r.fields[i := edited.fields[i]]); }
    }
    assert r.fields == Merged(current, baseline, edited).fields;
  }

  // ---- the whole flush ----

  /** The index under which the draft first saw an identifier. */
  ghost function Origin(baseline: Configs, id: string): Option<Slot>
    ensures Origin(baseline, id).Some? ==>
              Origin(baseline, id).value in baseline && baseline[Origin(baseline, id).value].configId == id
    ensures Origin(baseline, id).None? ==> forall i | i in baseline :: baseline[i].configId != id
  {
    if i :| i in baseline && baseline[i].configId == id then Some(i) else None
  }

  lemma OriginIs(baseline: Configs, i: Slot)
    requires UniqueIds(baseline) && i in baseline
    ensures Origin(baseline, baseline[i].configId) == Some(i)
  {
  }

  /** Whether the draft dropped a configuration it had seen. */
  ghost predicate Dropped(baseline: Configs, edited: Configs, id: string)
  {
    Origin(baseline, id).Some? && Origin(baseline, id).value !in edited
  }

  ghost function Rewritten(c: Config, baseline: Configs, edited: Configs): Config
  {
    var at := Origin(baseline, c.configId);
    if at.Some? && at.value in edited && edited[at.value].configId == c.configId then
      Merged(c, baseline[at.value], edited[at.value])
    else c
  }

  ghost function Updated(shared: Configs, baseline: Configs, edited: Configs): Configs
  {
    map k | k in shared && !Dropped(baseline, edited, shared[k].configId) :: Rewritten(shared[k], baseline, edited)
  }

  function New(baseline: Configs, edited: Configs): Configs { map k | k in edited && k !in baseline :: edited[k] }

  /** The shared configurations after a flush: an index that is taken keeps what it has. */
  ghost function Flushed(shared: Configs, baseline: Configs, edited: Configs): Configs
  {
    New(baseline, edited) + Updated(shared, baseline, edited)
  }

  ghost predicate IsFirst(m: Configs, i: Slot) { i in m && forall j | j in m :: i.index <= j.index }

  ghost predicate Normalized(m: Configs, wanted: Slot, selected: Slot)
  {
    if wanted in m then selected == wanted
    else if m == map[] then selected == Slot(1)
    else IsFirst(m, selected)
  }

  // ---- visiting one baseline entry at a time ----

  lemma NothingVisited(shared: Configs, edited: Configs)
    ensures Updated(shared, map[], edited) == shared
  {
    forall id ensures Origin(map[], id).None? { }
  }

  /** What visiting one baseline entry does to the shared configurations. */
  ghost function Visited(m: Configs, index: Slot, original: Config, edited: Configs): Configs
  {
    if index !in edited then map k | k in m && m[k].configId != original.configId :: m[k]
    else if edited[index].configId == original.configId then
      map k | k in m :: if m[k].configId == original.configId then Merged(m[k], original, edited[index]) else m[k]
    else m
  }

  lemma OriginStep(done: Configs, index: Slot, original: Config, id: string)
    requires index !in done && UniqueIds(done[index := original])
    ensures Origin(done, original.configId).None?
    ensures Origin(done[index := original], id) == if id == original.configId then Some(index) else Origin(done, id)
  {
    var more := done[index := original];
    assert more[index] == original;
    forall i | i in done ensures done[i].configId != original.configId { assert more[i] == done[i]; }
    OriginIs(more, index);
    if id != original.configId {
      if Origin(done, id).Some? { OriginIs(more, Origin(done, id).value); }
      if Origin(more, id).Some? { assert Origin(more, id).value in done; }
    }
  }

  lemma VisitUpdates(shared: Configs, done: Configs, index: Slot, original: Config, edited: Configs)
    requires index !in done && UniqueIds(done[index := original])
    ensures Visited(Updated(shared, done, edited), index, original, edited) == Updated(shared, done[index := original], edited)
  {
    var more := done[index := original];
    var m, n := Updated(shared, done, edited), Updated(shared, more, edited);
    var v := Visited(m, index, original, edited);
    forall k | k in shared
      ensures (k in v <==> k in n) && (k in v ==> v[k] == n[k])
    {
      OriginStep(done, index, original, shared[k].configId);
      OriginStep(done, index, original, original.configId);
    }
  }

  /** One round of the flush loop: what is visited next leaves the rest of the baseline to do. */
  lemma VisitStep(shared: Configs, baseline: Configs, left: set<Slot>, index: Slot, edited: Configs)
    requires UniqueIds(shared) && UniqueIds(baseline) && index in left && left <= baseline.Keys
    ensures Visited(Updated(shared, baseline - left, edited), index, baseline[index], edited)
         == Updated(shared, baseline - (left - {index}), edited)
    ensures UniqueIds(Updated(shared, baseline - (left - {index}), edited))
  {
    var done, more := baseline - left, baseline - (left - {index});
    assert more == done[index := baseline[index]];
    assert forall i | i in more :: more[i] == baseline[i];
    VisitUpdates(shared, done, index, baseline[index], edited);
    UpdatedUnique(shared, more, edited);
  }

  /** One round of the insertion loop. */
  lemma InsertStep(shared: Configs, baseline: Configs, edited: Configs, left: set<Slot>, index: Slot)
    requires index in left && left <= edited.Keys
    ensures var m := New(baseline, edited - left) + shared;
      New(baseline, edited - (left - {index})) + shared
        == if index !in baseline && index !in m then m[index := edited[index]] else m
  {
    NewStep(baseline, edited, left, index);
  }

  lemma NewStep(baseline: Configs, edited: Configs, left: set<Slot>, index: Slot)
    requires index in left && left <= edited.Keys
    ensures New(baseline, edited - (left - {index}))
         == if index in baseline then New(baseline, edited - left) else New(baseline, edited - left)[index := edited[index]]
    ensures index !in New(baseline, edited - left)
  {}

  lemma UpdatedUnique(shared: Configs, baseline: Configs, edited: Configs)
    requires UniqueIds(shared)
    ensures UniqueIds(Updated(shared, baseline, edited))
  {
    var m := Updated(shared, baseline, edited);
    assert forall k | k in m :: m[k].configId == shared[k].configId;
  }

  class AppState {
    var configs: Configs
    var currentConfigIndex: Slot

    constructor (configs: Configs, current: Slot)
      ensures this.configs == configs && currentConfigIndex == current
    {
      this.configs, currentConfigIndex := configs, current;
    }

    method FindById(id: string) returns (found: Option<Slot>)
      ensures found.Some? ==> found.value in configs && configs[found.value].configId == id
      ensures found.None? ==> !HasId(configs, id)
    {
      var left := configs.Keys;
      while left != {}
        invariant left <= configs.Keys
        invariant forall i | i in configs && i !in left :: configs[i].configId != id
        decreases |left|
      {
        var i :| i in left;
        if configs[i].configId == id { return Some(i); }
        left := left - {i};
      }
      found := None;
    }

    method NormalizeSelection()
      modifies this`currentConfigIndex
      ensures Normalized(configs, old(currentConfigIndex), currentConfigIndex)
    {
      if currentConfigIndex in configs { return; }
      if configs == map[] {
        currentConfigIndex := Slot(1);
        return;
      }
      var least :| least in configs;
      var left := configs.Keys;
      while left != {}
        invariant left <= configs.Keys && least in configs
        invariant forall i | i in configs && i !in left :: least.index <= i.index
        decreases |left|
      {
        var i :| i in left;
        if i.index < least.index { least := i; }
        left := left - {i};
      }
      currentConfigIndex := least;
    }

    method ModifyConfigById(id: string, mutation: Config -> Config) returns (ok: bool)
      requires UniqueIds(configs)
      modifies this`configs
      ensures ok <==> HasId(old(configs), id)
      ensures configs == map k | k in old(configs) ::
                           if old(configs)[k].configId == id then mutation(old(configs)[k]) else old(configs)[k]
    {
      var at := FindById(id);
      ok := at.Some?;
      if ok { configs := configs[at.value := mutation(configs[at.value])]; }
    }

    method DeleteConfigById(id: string) returns (ok: bool)
      requires UniqueIds(configs)
      modifies this
      ensures ok <==> HasId(old(configs), id)
      ensures configs == map k | k in old(configs) && old(configs)[k].configId != id :: old(configs)[k]
      ensures if ok then Normalized(configs, old(currentConfigIndex), currentConfigIndex)
              else currentConfigIndex == old(currentConfigIndex)
    {
      var at := FindById(id);
      ok := at.Some?;
      if ok {
        configs := configs - {at.value};
        NormalizeSelection();
      }
    }
  }

  class UiConfigDraft {
    const app: AppState
    var baseline: Snapshot
    var edited: Snapshot

    constructor (app: AppState)
      ensures this.app == app
      ensures baseline == Snapshot(app.configs, app.currentConfigIndex) && edited == baseline
    {
      this.app := app;
      baseline, edited := Snapshot(app.configs, app.currentConfigIndex), Snapshot(app.configs, app.currentConfigIndex);
    }

    method ObserveInserted(index: Slot, config: Config)
      modifies this
      ensures baseline == old(baseline).(configs := old(baseline).configs[index := config])
      ensures edited == old(edited).(configs := old(edited).configs[index := config])
    {
      baseline := baseline.(configs := baseline.configs[index := config]);
      edited := edited.(configs := edited.configs[index := config]);
    }

    /** One configuration of the baseline: merge it, remove it, or leave it if it is gone. */
    method FlushOne(index: Slot, original: Config)
      requires UniqueIds(app.configs)
      modifies app`configs
      ensures app.configs == Visited(old(app.configs), index, original, edited.configs)
    {
      var current := app.FindById(original.configId);
      if current.None? { return; }
      if index !in edited.configs {
        app.configs := app.configs - {current.value};
      } else if edited.configs[index].configId == original.configId {
        var merged := MergeFields(app.configs[current.value], original, edited.configs[index]);
        app.configs := app.configs[current.value := merged];
      }
    }

    method FlushExisting()
      requires UniqueIds(app.configs) && UniqueIds(baseline.configs)
      modifies app`configs
      ensures app.configs == Updated(old(app.configs), baseline.configs, edited.configs)
    {
      var left := baseline.configs.Keys;
      ghost var shared := app.configs;
      NothingVisited(shared, edited.configs);
      assert baseline.configs - left == map[];
      while left != {}
        invariant left <= baseline.configs.Keys && UniqueIds(app.configs)
        invariant app.configs == Updated(shared, baseline.configs - left, edited.configs)
        decreases |left|
      {
        var index :| index in left;
        VisitStep(shared, baseline.configs, left, index, edited.configs);
        FlushOne(index, baseline.configs[index]);
        left := left - {index};
      }
      assert baseline.configs - {} == baseline.configs;
    }

    method FlushNew()
      modifies app`configs
      ensures app.configs == New(baseline.configs, edited.configs) + old(app.configs)
    {
      var left := edited.configs.Keys;
      while left != {}
        invariant left <= edited.configs.Keys
        invariant app.configs == New(baseline.configs, edited.configs - left) + old(app.configs)
        decreases |left|
      {
        var index :| index in left;
        InsertStep(old(app.configs), baseline.configs, edited.configs, left, index);
        if index !in baseline.configs && index !in app.configs {
          app.configs := app.configs[index := edited.configs[index]];
        }
        left := left - {index};
      }
      assert edited.configs - {} == edited.configs;
    }

    method Flush()
      requires UniqueIds(app.configs) && UniqueIds(baseline.configs)
      modifies this, app
      ensures app.configs == Flushed(old(app.configs), old(baseline).configs, old(edited).configs)
      ensures var wanted := if old(edited).selectedIndex != old(baseline).selectedIndex then old(edited).selectedIndex
                            else old(app.currentConfigIndex);
              Normalized(app.configs, wanted, app.currentConfigIndex)
      ensures edited.configs == old(edited).configs && baseline == edited
      ensures edited.selectedIndex == if old(edited).selectedIndex in app.configs then old(edited).selectedIndex
                                      else app.currentConfigIndex
    {
      FlushExisting();
      FlushNew();
      if edited.selectedIndex != baseline.selectedIndex { app.currentConfigIndex := edited.selectedIndex; }
      app.NormalizeSelection();
      if edited.selectedIndex !in app.configs { edited := edited.(selectedIndex := app.currentConfigIndex); }
      baseline := edited;
    }
  }

  // ---- what one flush means ----

  /** A profile both sides still have takes the fields the draft changed and keeps every other shared value. */
  lemma FlushIsThreeWay(shared: Configs, baseline: Configs, edited: Configs, k: Slot, i: Slot, f: nat)
    requires UniqueIds(baseline) && k in shared && i in baseline && i in edited && f < 37
    requires shared[k].configId == baseline[i].configId == edited[i].configId
    ensures var m := Flushed(shared, baseline, edited);
            k in m && m[k].configId == shared[k].configId
            && m[k].fields[f] == if edited[i].fields[f] != baseline[i].fields[f] then edited[i].fields[f] else shared[k].fields[f]
  {
    OriginIs(baseline, i);
  }

  /** The draft saw a configuration of that identifier and no longer has its index. */
  ghost predicate DroppedId(baseline: Configs, edited: Configs, id: string)
  {
    exists i :: i in baseline && baseline[i].configId == id && i !in edited
  }

  /** The draft saw a configuration of that identifier and still has it under its index. */
  ghost predicate KeptId(baseline: Configs, edited: Configs, id: string)
  {
    exists i :: i in baseline && baseline[i].configId == id && i in edited && edited[i].configId == id
  }

  /** Where a configuration after a flush comes from: it is the shared one, unless the draft dropped its identifier, or
      else what the draft holds under an index its baseline lacks. */
  lemma FlushIs(shared: Configs, baseline: Configs, edited: Configs, k: Slot)
    requires UniqueIds(baseline)
    ensures var m := Flushed(shared, baseline, edited);
            var stays := k in shared && !DroppedId(baseline, edited, shared[k].configId);
      && (k in m <==> stays || (k in edited && k !in baseline))
      && (stays ==> m[k].configId == shared[k].configId)
      && (stays && !KeptId(baseline, edited, shared[k].configId) ==> m[k] == shared[k])
      && (k in m && !stays ==> m[k] == edited[k])
  {
    if k in shared && DroppedId(baseline, edited, shared[k].configId) {
      var i :| i in baseline && baseline[i].configId == shared[k].configId && i !in edited;
      OriginIs(baseline, i);
    }
  }

  /** A flush without edits changes no configuration, whatever others did meanwhile. */
  lemma FlushWithoutEdits(shared: Configs, draft: Configs)
    ensures Flushed(shared, draft, draft) == shared
  {
    forall k | k in shared ensures k in Updated(shared, draft, draft) && Updated(shared, draft, draft)[k] == shared[k] {
      var c := shared[k];
      var at := Origin(draft, c.configId);
      if at.Some? { assert Merged(c, draft[at.value], draft[at.value]).fields == c.fields; }
    }
  }

  /** An identifier the shared state does not have comes back exactly when the draft inserts it itself: under an
      index its baseline lacks and the shared state leaves free. */
  lemma FlushAddsOnlyInsertions(shared: Configs, baseline: Configs, edited: Configs, id: string)
    requires !HasId(shared, id)
    ensures HasId(Flushed(shared, baseline, edited), id)
       <==> exists k :: k in edited && k !in baseline && edited[k].configId == id && k !in Updated(shared, baseline, edited)
  {
    var m, u := Flushed(shared, baseline, edited), Updated(shared, baseline, edited);
    assert forall k | k in u :: u[k].configId == shared[k].configId;
    if k :| k in edited && k !in baseline && edited[k].configId == id && k !in u {
      assert k in m && m[k] == edited[k];
    }
    if k :| k in m && m[k].configId == id {
      assert k !in u && m[k] == edited[k];
    }
  }

  /** What the draft dropped is gone, unless it is also inserted anew. */
  lemma FlushRemovesDropped(shared: Configs, baseline: Configs, edited: Configs, i: Slot)
    requires UniqueIds(baseline) && i in baseline && i !in edited
    requires forall k | k in edited && k !in baseline :: edited[k].configId != baseline[i].configId
    ensures !HasId(Flushed(shared, baseline, edited), baseline[i].configId)
  {
    OriginIs(baseline, i);
    var u := Updated(shared, baseline, edited);
    assert forall k | k in u :: u[k].configId == shared[k].configId;
  }

  /** A profile put in the place of another within one draft is lost: the old one stays, the new one never arrives. */
  lemma ReplacedInPlaceIsLost(shared: Configs, baseline: Configs, edited: Configs, k: Slot, i: Slot)
    requires UniqueIds(baseline) && k in shared && i in baseline && i in edited
    requires shared[k].configId == baseline[i].configId != edited[i].configId && !HasId(shared, edited[i].configId)
    requires forall j | j in edited && j != i :: edited[j].configId != edited[i].configId
    ensures var m := Flushed(shared, baseline, edited);
            k in m && m[k] == shared[k] && !HasId(m, edited[i].configId)
  {
    OriginIs(baseline, i);
    FlushAddsOnlyInsertions(shared, baseline, edited, edited[i].configId);
  }

  // ---- any interleaving of the draft with other writers ----

  /** `used` holds every identifier ever given out. */
  datatype World = World(shared: Configs, baseline: Configs, edited: Configs, used: set<string>)

  datatype Action =
    | EditDraft(edited: Configs)
    | FlushDraft
    | ModifyOther(id: string, mutation: Config -> Config)
    | DeleteOther(id: string)
    | InsertOther(slot: Slot, config: Config)

  ghost function Next(w: World, a: Action): World
  {
    match a
    case EditDraft(e) => w.(edited := e, used := w.used + set k | k in e :: e[k].configId)
    case FlushDraft => w.(shared := Flushed(w.shared, w.baseline, w.edited), baseline := w.edited)
    case ModifyOther(id, mutation) =>
      w.(shared := map k | k in w.shared :: if w.shared[k].configId == id then mutation(w.shared[k]) else w.shared[k])
    case DeleteOther(id) => w.(shared := map k | k in w.shared && w.shared[k].configId != id :: w.shared[k])
    case InsertOther(slot, config) =>
      World(w.shared[slot := config], w.baseline[slot := config], w.edited[slot := config], w.used + {config.configId})
  }

  /** New profiles get new identifiers, and nobody changes the identifier of an existing one. */
  ghost predicate Legal(w: World, a: Action)
  {
    match a
    case EditDraft(e) =>
      && UniqueIds(e)
      && forall k | k in e :: (k in w.edited && e[k].configId == w.edited[k].configId)
                              || (k !in w.baseline && e[k].configId !in w.used)
    case FlushDraft => true
    case ModifyOther(id, mutation) => forall c: Config :: mutation(c).configId == c.configId
    case DeleteOther(id) => true
    case InsertOther(slot, config) => slot !in w.shared && config.configId !in w.used
  }

  ghost predicate Within(m: Configs, used: set<string>) { forall k | k in m :: m[k].configId in used }

  ghost predicate Inv(w: World)
  {
    && UniqueIds(w.shared) && UniqueIds(w.baseline) && UniqueIds(w.edited)
    && Within(w.shared, w.used) && Within(w.baseline, w.used) && Within(w.edited, w.used)
    && forall k | k in w.edited && k !in w.baseline :: !HasId(w.shared, w.edited[k].configId)
  }

  lemma UsedGrows(e: Configs, used: set<string>)
    ensures Within(e, used + set k | k in e :: e[k].configId)
  {
  }

  lemma FlushedUnique(w: World)
    requires Inv(w)
    ensures UniqueIds(Flushed(w.shared, w.baseline, w.edited)) && Within(Flushed(w.shared, w.baseline, w.edited), w.used)
  {
    var u, m := Updated(w.shared, w.baseline, w.edited), Flushed(w.shared, w.baseline, w.edited);
    UpdatedUnique(w.shared, w.baseline, w.edited);
    forall k | k in m ensures (k in u && m[k] == u[k] && HasId(w.shared, m[k].configId))
                              || (k in w.edited && k !in w.baseline && m[k] == w.edited[k]) {
      if k in u { assert u[k].configId == w.shared[k].configId; }
    }
  }

  lemma NextKeepsInv(w: World, a: Action)
    requires Inv(w) && Legal(w, a)
    ensures Inv(Next(w, a))
  {
    match a
    case EditDraft(e) =>
      UsedGrows(e, w.used);
      assert forall k | k in e && k !in w.baseline :: !HasId(w.shared, e[k].configId);
    case FlushDraft => FlushedUnique(w);
    case ModifyOther(id, mutation) => assert forall k | k in w.shared :: Next(w, a).shared[k].configId == w.shared[k].configId;
    case DeleteOther(id) =>
    case InsertOther(slot, config) =>
  }

  ghost predicate LegalRun(w: World, run: seq<Action>)
    decreases run
  {
    run == [] || (Legal(w, run[0]) && LegalRun(Next(w, run[0]), run[1..]))
  }

  ghost function AfterRun(w: World, run: seq<Action>): World
    decreases run
  {
    if run == [] then w else AfterRun(Next(w, run[0]), run[1..])
  }

  /** The identifier is out of use: the shared state lacks it and the draft holds no pending insertion of it. */
  ghost predicate Gone(w: World, id: string)
  {
    id in w.used && !HasId(w.shared, id) && forall k | k in w.edited && w.edited[k].configId == id :: k in w.baseline
  }

  lemma GoneStays(w: World, a: Action, id: string)
    requires Inv(w) && Legal(w, a) && Gone(w, id)
    ensures Gone(Next(w, a), id)
  {
    match a
    case EditDraft(e) =>
    case FlushDraft => FlushAddsOnlyInsertions(w.shared, w.baseline, w.edited, id);
    case ModifyOther(m, mutation) => assert forall k | k in w.shared :: Next(w, a).shared[k].configId == w.shared[k].configId;
    case DeleteOther(_) =>
    case InsertOther(slot, config) =>
  }

  lemma {:induction false} GoneForever(w: World, run: seq<Action>, id: string)
    requires Inv(w) && LegalRun(w, run) && Gone(w, id)
    ensures !HasId(AfterRun(w, run).shared, id)
    decreases run
  {
    if run != [] {
      GoneStays(w, run[0], id);
      NextKeepsInv(w, run[0]);
      GoneForever(Next(w, run[0]), run[1..], id);
    }
  }

  /** A profile another writer deletes is never resurrected, by whatever edits and flushes follow. */
  lemma DeletedStaysDeleted(w: World, run: seq<Action>, id: string)
    requires Inv(w) && HasId(w.shared, id) && LegalRun(Next(w, DeleteOther(id)), run)
    ensures !HasId(AfterRun(Next(w, DeleteOther(id)), run).shared, id)
  {
    NextKeepsInv(w, DeleteOther(id));
    GoneForever(Next(w, DeleteOther(id)), run, id);
  }
}
