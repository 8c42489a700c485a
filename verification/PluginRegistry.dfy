/** The plugin runtime across restarts: database rows, tombstones and the in-memory registry. Database calls do not fail. */
module PluginRegistry {
  import opened Common
  import opened Lexical

  // A manifest; `rest` stands for every field the registry does not look at.
  datatype Provider = Provider(name: string, version: string, required: bool, rest: string)

  // A row's manifest may fail to decode.
  datatype Row = Row(manifest: Option<Provider>, version: string, enabled: bool)

  datatype Db = Db(rows: map<string, Row>, tombstones: set<string>)

  datatype Live = Live(provider: Provider, enabled: bool)

  datatype World = World(db: Db, providers: map<string, Live>)

  datatype Error = NotFound | RequiredPlugin | NotBuiltin | AlreadyInstalled

  // Rows are stored under their manifest's own name.
  predicate Keyed(db: Db) {
    forall n | n in db.rows && db.rows[n].manifest.Some? :: db.rows[n].manifest.value.name == n
  }

  // ---------------------------------------------------------------- merging manifest sources

  // For each name the last provider in the list that bears it.
  function ByName(ps: seq<Provider>): map<string, Provider> {
    if ps == [] then map[] else ByName(ButLast(ps))[Last(ps).name := Last(ps)]
  }

  lemma {:induction false} ByNameKeyed(ps: seq<Provider>)
    ensures forall n | n in ByName(ps) :: ByName(ps)[n].name == n && ByName(ps)[n] in ps
    ensures forall i | 0 <= i < |ps| :: ps[i].name in ByName(ps)
  {
    if ps != [] {
      ByNameKeyed(ButLast(ps));
      assert ps == ButLast(ps) + [Last(ps)];
    }
  }

  /** A later list wins by name over an earlier one. */
  lemma {:induction false} OverlayWins(embedded: seq<Provider>, overlay: seq<Provider>)
    ensures ByName(embedded + overlay) == ByName(embedded) + ByName(overlay)
  {
    if overlay == [] {
      assert embedded + overlay == embedded;
    } else {
      OverlayWins(embedded, ButLast(overlay));
      assert embedded + overlay == (embedded + ButLast(overlay)) + [Last(overlay)];
      SnocParts(embedded + ButLast(overlay), Last(overlay));
    }
  }

  function Names(ps: seq<Provider>): seq<string> {
    seq(|ps|, i requires 0 <= i < |ps| => ps[i].name)
  }

  lemma ByNameSnoc(ps: seq<Provider>, i: nat)
    requires i < |ps|
    ensures ByName(ps[..i + 1]) == ByName(ps[..i])[ps[i].name := ps[i]]
  {
    assert ps[..i + 1] == ps[..i] + [ps[i]];
  }

  // One list of manifests put over what is there.
  method PutAll(before: map<string, Provider>, ps: seq<Provider>) returns (byName: map<string, Provider>)
    ensures byName == before + ByName(ps)
  {
    byName := before;
    for i := 0 to |ps|
      invariant byName == before + ByName(ps[..i])
    {
      ByNameSnoc(ps, i);
      byName := byName[ps[i].name := ps[i]];
    }
    assert ps[..|ps|] == ps;
  }

  method InNameOrder(byName: map<string, Provider>) returns (out: seq<Provider>)
    requires forall n | n in byName :: byName[n].name == n
    ensures Ascending(Names(out)) && forall n :: n in byName <==> n in Names(out)
    ensures forall i | 0 <= i < |out| :: out[i].name in byName && out[i] == byName[out[i].name]
  {
    var keys := SortedKeys(byName.Keys);
    assert forall i | 0 <= i < |keys| :: keys[i] in keys;
    out := seq(|keys|, i requires 0 <= i < |keys| => byName[keys[i]]);
    forall i | 0 <= i < |keys| ensures out[i].name == keys[i] {
      assert keys[i] in byName;
    }
    assert Names(out) == keys;
  }

  /** `mergeProviders`: sorted by name, one per name, the overlay's where both have one. */
  method MergeProviders(embedded: seq<Provider>, overlay: seq<Provider>) returns (out: seq<Provider>)
    ensures Ascending(Names(out))
    ensures forall n :: n in ByName(embedded) + ByName(overlay) <==> n in Names(out)
    ensures forall i | 0 <= i < |out| ::
              out[i].name in ByName(embedded) + ByName(overlay) && out[i] == (ByName(embedded) + ByName(overlay))[out[i].name]
  {
    var byName := PutAll(map[], embedded);
    byName := PutAll(byName, overlay);
    assert byName == ByName(embedded) + ByName(overlay);
    ByNameKeyed(embedded);
    ByNameKeyed(overlay);
    out := InNameOrder(byName);
  }

  // ---------------------------------------------------------------- boot

  type Manifests = map<string, Provider>

  predicate Readable(db: Db, n: string) {
    n in db.rows && db.rows[n].manifest.Some?
  }

  // The names a boot seeds: no readable row, and not uninstalled.
  predicate IsSeeded(db: Db, m: Manifests, n: string) {
    n in m && !Readable(db, n) && n !in db.tombstones
  }

  predicate Known(db: Db, m: Manifests, n: string) {
    n in db.rows || IsSeeded(db, m, n)
  }

  function SeedRow(p: Provider): Row {
    Row(Some(p), p.version, true)
  }

  // A name's row after a boot: seeded, synced with the manifest at hand, or left alone.
  function BootRow(db: Db, m: Manifests, n: string): Row
    requires Known(db, m, n)
  {
    if IsSeeded(db, m, n) then SeedRow(m[n])
    else if Readable(db, n) && n in m then db.rows[n].(manifest := Some(m[n]), version := m[n].version)
    else db.rows[n]
  }

  function BootLive(db: Db, m: Manifests, n: string): Live
    requires Readable(db, n) || IsSeeded(db, m, n)
  {
    Live(if n in m then m[n] else db.rows[n].manifest.value, IsSeeded(db, m, n) || db.rows[n].enabled)
  }

  // A fresh process that has loaded the database and these manifests.
  function Boot(db: Db, m: Manifests): World {
    var names := db.rows.Keys + m.Keys;
    World(db.(rows := map n | n in names && Known(db, m, n) :: BootRow(db, m, n)),
          map n | n in names && (Readable(db, n) || IsSeeded(db, m, n)) :: BootLive(db, m, n))
  }

  /** What a boot makes of each name: a plugin with a row that decodes keeps the enabled flag of that row, under the manifest at
      hand or else its own; one without is loaded, enabled, exactly if there is a manifest for it and no tombstone. */
  lemma BootMeans(db: Db, m: Manifests, n: string)
    ensures
      var w := Boot(db, m);
      if n in db.rows && db.rows[n].manifest.Some? then
        var row := db.rows[n];
        var p := if n in m then m[n] else row.manifest.value;
        && n in w.providers && w.providers[n] == Live(p, row.enabled)
        && n in w.db.rows && w.db.rows[n] == Row(Some(p), if n in m then p.version else row.version, row.enabled)
      else if n in m && n !in db.tombstones then
        && n in w.providers && w.providers[n] == Live(m[n], true)
        && n in w.db.rows && w.db.rows[n] == Row(Some(m[n]), m[n].version, true)
      else
        && n !in w.providers
        && (n in w.db.rows <==> n in db.rows) && (n in db.rows ==> w.db.rows[n] == db.rows[n])
    ensures Boot(db, m).db.tombstones == db.tombstones
  {
  }

  // ---------------------------------------------------------------- the other operations

  function Store(db: Db, p: Provider): Db {
    db.(rows := db.rows[p.name := SeedRow(p)])
  }

  function Registered(w: World, p: Provider): World {
    World(Store(w.db, p), w.providers[p.name := Live(p, true)])
  }

  function EnableError(w: World, n: string, enabled: bool): Option<Error> {
    if n !in w.providers then Some(NotFound)
    else if !enabled && w.providers[n].provider.required then Some(RequiredPlugin)
    else None
  }

  function Enabled(w: World, n: string, enabled: bool): World {
    if EnableError(w, n, enabled).Some? then w
    else World(if n in w.db.rows then w.db.(rows := w.db.rows[n := w.db.rows[n].(enabled := enabled)]) else w.db,
               w.providers[n := w.providers[n].(enabled := enabled)])
  }

  function RemoveError(w: World, n: string): Option<Error> {
    if n !in w.providers then Some(NotFound)
    else if w.providers[n].provider.required then Some(RequiredPlugin)
    else None
  }

  function Removed(w: World, n: string): World {
    if RemoveError(w, n).Some? then w else World(w.db.(rows := w.db.rows - {n}), w.providers - {n})
  }

  // The installer's uninstall: a best-effort removal, then the row and a tombstone regardless.
  function Uninstalled(w: World, n: string): World {
    var v := Removed(w, n);
    v.(db := Db(v.db.rows - {n}, v.db.tombstones + {n}))
  }

  function FirstNamed(ps: seq<Provider>, n: string): Option<Provider> {
    if ps == [] then None else if ps[0].name == n then Some(ps[0]) else FirstNamed(ps[1..], n)
  }

  function RestoreError(w: World, builtins: seq<Provider>, n: string): Option<Error> {
    if FirstNamed(builtins, n).None? then Some(NotBuiltin)
    else if n in w.providers then Some(AlreadyInstalled)
    else None
  }

  function Restored(w: World, builtins: seq<Provider>, n: string): World {
    if RestoreError(w, builtins, n).Some? then w
    else Registered(w.(db := w.db.(tombstones := w.db.tombstones - {n})), FirstNamed(builtins, n).value)
  }

  // ---------------------------------------------------------------- agreement of memory and database

  // The in-memory name-to-enabled map is the database's.
  predicate Agree(w: World) {
    && w.providers.Keys == w.db.rows.Keys
    && forall n | n in w.providers :: w.providers[n].enabled == w.db.rows[n].enabled && w.providers[n].provider.name == n
  }

  predicate AllReadable(db: Db) {
    forall n | n in db.rows :: db.rows[n].manifest.Some?
  }

  predicate KeyedBy(m: Manifests) {
    forall n | n in m :: m[n].name == n
  }

  /** After a boot memory and database agree exactly when every row that cannot be decoded is seeded afresh. */
  lemma BootAgrees(db: Db, m: Manifests)
    requires Keyed(db) && KeyedBy(m)
    ensures Agree(Boot(db, m)) <==> forall n | n in db.rows && !Readable(db, n) :: IsSeeded(db, m, n)
    ensures Keyed(Boot(db, m).db)
  {
    var w := Boot(db, m);
    assert forall n :: n in w.db.rows <==> Known(db, m, n);
    assert forall n :: n in w.providers <==> Readable(db, n) || IsSeeded(db, m, n);
    if Agree(w) {
      forall n | n in db.rows && !Readable(db, n) ensures IsSeeded(db, m, n) {
        assert n in w.db.rows.Keys;
      }
    }
  }

  // What a boot finds of a name after another boot.
  lemma SecondBootFinds(db: Db, m: Manifests, n: string)
    ensures var w := Boot(db, m);
            && (Known(w.db, m, n) <==> Known(db, m, n)) && !IsSeeded(w.db, m, n)
            && (Readable(w.db, n) <==> Readable(db, n) || IsSeeded(db, m, n))
  {
  }

  lemma SecondBootKeeps(db: Db, m: Manifests, n: string)
    ensures Known(db, m, n) ==> Known(Boot(db, m).db, m, n) && BootRow(Boot(db, m).db, m, n) == BootRow(db, m, n)
    ensures Readable(db, n) || IsSeeded(db, m, n) ==>
              Readable(Boot(db, m).db, n) && BootLive(Boot(db, m).db, m, n) == BootLive(db, m, n)
  {
    SecondBootFinds(db, m, n);
  }

  /** Booting again with the same manifests changes nothing, in memory or in the database. */
  lemma SecondBootIsIdle(db: Db, m: Manifests)
    ensures Boot(Boot(db, m).db, m) == Boot(db, m)
  {
    var w, v := Boot(db, m), Boot(Boot(db, m).db, m);
    forall n ensures (n in v.db.rows <==> n in w.db.rows) && (n in w.db.rows ==> v.db.rows[n] == w.db.rows[n]) {
      SecondBootFinds(db, m, n);
      SecondBootKeeps(db, m, n);
    }
    forall n ensures (n in v.providers <==> n in w.providers) && (n in w.providers ==> v.providers[n] == w.providers[n]) {
      SecondBootFinds(db, m, n);
      SecondBootKeeps(db, m, n);
    }
    assert v.db.rows == w.db.rows && v.providers == w.providers;
  }

  // ---------------------------------------------------------------- runs

  datatype Op =
    | Boots(embedded: seq<Provider>, overlay: seq<Provider>)
    | Registers(p: Provider)
    | Toggles(name: string, enabled: bool)
    | Removes(name: string)
    | Uninstalls(name: string)
    | Restores(builtins: seq<Provider>, name: string)

  function Apply(w: World, op: Op): World {
    match op
    case Boots(embedded, overlay) => Boot(w.db, ByName(embedded) + ByName(overlay))
    case Registers(p) => Registered(w, p)
    case Toggles(n, enabled) => Enabled(w, n, enabled)
    case Removes(n) => Removed(w, n)
    case Uninstalls(n) => Uninstalled(w, n)
    case Restores(builtins, n) => Restored(w, builtins, n)
  }

  function Run(w: World, ops: seq<Op>): World {
    if ops == [] then w else Apply(Run(w, ButLast(ops)), Last(ops))
  }

  predicate Required(w: World, n: string) {
    n in w.providers && w.providers[n].provider.required
  }

  // No uninstall of a required plugin.
  predicate Respectful(w: World, ops: seq<Op>) {
    ops == [] ||
    (&& Respectful(w, ButLast(ops))
     && (Last(ops).Uninstalls? ==> !Required(Run(w, ButLast(ops)), Last(ops).name)))
  }

  predicate Sound(w: World) {
    Agree(w) && AllReadable(w.db) && Keyed(w.db)
  }

  predicate IsFirstNamed(ps: seq<Provider>, n: string, i: int) {
    0 <= i < |ps| && ps[i].name == n && forall j | 0 <= j < i :: ps[j].name != n
  }

  lemma {:induction false} FirstNamedName(ps: seq<Provider>, n: string)
    ensures FirstNamed(ps, n).Some? ==> FirstNamed(ps, n).value.name == n
    ensures FirstNamed(ps, n).Some? ==> exists i :: IsFirstNamed(ps, n, i) && FirstNamed(ps, n).value == ps[i]
    ensures FirstNamed(ps, n).None? <==> forall i | 0 <= i < |ps| :: ps[i].name != n
  {
    if ps != [] {
      FirstNamedName(ps[1..], n);
      assert ps == [ps[0]] + ps[1..];
      if ps[0].name == n {
        assert IsFirstNamed(ps, n, 0);
      } else if i :| IsFirstNamed(ps[1..], n, i) && FirstNamed(ps[1..], n).Some? && FirstNamed(ps[1..], n).value == ps[1..][i] {
        assert IsFirstNamed(ps, n, i + 1);
      }
    }
  }

  lemma BootReadable(db: Db, m: Manifests)
    requires AllReadable(db)
    ensures AllReadable(Boot(db, m).db)
  {
    forall n | n in Boot(db, m).db.rows ensures Boot(db, m).db.rows[n].manifest.Some? {
      assert BootRow(db, m, n).manifest.Some?;
    }
  }

  lemma BootSound(db: Db, embedded: seq<Provider>, overlay: seq<Provider>)
    requires Keyed(db) && AllReadable(db)
    ensures Sound(Boot(db, ByName(embedded) + ByName(overlay)))
  {
    ByNameKeyed(embedded);
    ByNameKeyed(overlay);
    BootAgrees(db, ByName(embedded) + ByName(overlay));
    BootReadable(db, ByName(embedded) + ByName(overlay));
  }

  lemma RegisteredSound(w: World, p: Provider)
    requires Sound(w)
    ensures Sound(Registered(w, p))
  {
  }

  lemma EnabledSound(w: World, n: string, enabled: bool)
    requires Sound(w)
    ensures Sound(Enabled(w, n, enabled))
  {
  }

  lemma RemovedSound(w: World, n: string)
    requires Sound(w)
    ensures Sound(Removed(w, n))
    ensures !Required(w, n) ==> n !in Removed(w, n).providers
  {
  }

  lemma UninstalledSound(w: World, n: string)
    requires Sound(w) && !Required(w, n)
    ensures Sound(Uninstalled(w, n))
  {
    RemovedSound(w, n);
    assert Removed(w, n).db.rows - {n} == Removed(w, n).db.rows;
  }

  lemma RestoredSound(w: World, builtins: seq<Provider>, n: string)
    requires Sound(w)
    ensures Sound(Restored(w, builtins, n))
  {
    if RestoreError(w, builtins, n).None? {
      RegisteredSound(w.(db := w.db.(tombstones := w.db.tombstones - {n})), FirstNamed(builtins, n).value);
    }
  }

  lemma ApplyKeepsSound(w: World, op: Op)
    requires Sound(w) && (op.Uninstalls? ==> !Required(w, op.name))
    ensures Sound(Apply(w, op))
  {
    match op
    case Boots(embedded, overlay) => BootSound(w.db, embedded, overlay);
    case Registers(p) => RegisteredSound(w, p);
    case Toggles(n, enabled) => EnabledSound(w, n, enabled);
    case Removes(n) => RemovedSound(w, n);
    case Uninstalls(n) => UninstalledSound(w, n);
    case Restores(builtins, n) => RestoredSound(w, builtins, n);
  }

  // The world after the first boot: agreement then is all that a run needs of the database it begins with.
  lemma FirstBootSound(db: Db, m: Manifests)
    requires Keyed(db) && KeyedBy(m) && Agree(Boot(db, m))
    ensures Sound(Boot(db, m))
  {
    BootAgrees(db, m);
    forall n | n in Boot(db, m).db.rows ensures Boot(db, m).db.rows[n].manifest.Some? {
      assert n in db.rows && !Readable(db, n) ==> IsSeeded(db, m, n);
      assert BootRow(db, m, n).manifest.Some?;
    }
  }

  // The first boot seeds every row it cannot decode.
  predicate FirstBootMends(db: Db, op: Op)
    requires op.Boots?
  {
    forall n | n in db.rows && !Readable(db, n) :: IsSeeded(db, ByName(op.embedded) + ByName(op.overlay), n)
  }

  lemma {:induction false} RunSound(db: Db, ops: seq<Op>)
    requires Keyed(db) && ops != [] && ops[0].Boots? && FirstBootMends(db, ops[0])
    requires Respectful(World(db, map[]), ops)
    ensures Sound(Run(World(db, map[]), ops))
  {
    var start := World(db, map[]);
    if |ops| == 1 {
      assert ButLast(ops) == [];
      ByNameKeyed(ops[0].embedded);
      ByNameKeyed(ops[0].overlay);
      BootAgrees(db, ByName(ops[0].embedded) + ByName(ops[0].overlay));
      FirstBootSound(db, ByName(ops[0].embedded) + ByName(ops[0].overlay));
    } else {
      RunSound(db, ButLast(ops));
      ApplyKeepsSound(Run(start, ButLast(ops)), Last(ops));
    }
  }

  // The in-memory registry and the database agree after each operation of a run.
  predicate AgreesThroughout(w: World, ops: seq<Op>) {
    ops == [] || (Agree(Run(w, ops)) && AgreesThroughout(w, ButLast(ops)))
  }

  lemma {:induction false} FirstOfThroughout(w: World, ops: seq<Op>)
    requires ops != [] && AgreesThroughout(w, ops)
    ensures Agree(Run(w, ops[..1]))
  {
    if |ops| == 1 {
      assert ops[..1] == ops;
    } else {
      assert ButLast(ops)[..1] == ops[..1];
      FirstOfThroughout(w, ButLast(ops));
    }
  }

  lemma {:induction false} SoundThroughout(db: Db, ops: seq<Op>)
    requires Keyed(db) && ops != [] && ops[0].Boots? && FirstBootMends(db, ops[0])
    requires Respectful(World(db, map[]), ops)
    ensures AgreesThroughout(World(db, map[]), ops)
  {
    RunSound(db, ops);
    if |ops| > 1 {
      SoundThroughout(db, ButLast(ops));
    }
  }

  /** A run that begins with a boot and never uninstalls a required plugin keeps memory and database in agreement from the
      first boot on exactly when that boot seeds every row it cannot decode. */
  lemma RunAgrees(db: Db, ops: seq<Op>)
    requires Keyed(db) && ops != [] && ops[0].Boots? && Respectful(World(db, map[]), ops)
    ensures AgreesThroughout(World(db, map[]), ops) <==> FirstBootMends(db, ops[0])
    ensures FirstBootMends(db, ops[0]) ==> Sound(Run(World(db, map[]), ops))
  {
    var start, m := World(db, map[]), ByName(ops[0].embedded) + ByName(ops[0].overlay);
    if FirstBootMends(db, ops[0]) {
      SoundThroughout(db, ops);
      RunSound(db, ops);
    }
    if AgreesThroughout(start, ops) {
      FirstOfThroughout(start, ops);
      assert ops[..1] == [ops[0]] && ButLast([ops[0]]) == [];
      assert Run(start, [ops[0]]) == Boot(db, m);
      ByNameKeyed(ops[0].embedded);
      ByNameKeyed(ops[0].overlay);
      BootAgrees(db, m);
    }
  }

  /** Uninstalling keeps memory and database in agreement exactly when the plugin is not a required one. */
  lemma UninstallAgrees(w: World, n: string)
    requires Sound(w)
    ensures Agree(Uninstalled(w, n)) <==> !Required(w, n)
  {
    if Required(w, n) {
      assert n in Uninstalled(w, n).providers.Keys && n !in Uninstalled(w, n).db.rows.Keys;
    }
  }

  /** A required plugin's uninstall breaks the agreement: its row is gone, memory still has it. */
  lemma RequiredUninstallDisagrees() returns (w: World)
    ensures Sound(w) && !Agree(Uninstalled(w, "shell"))
  {
    var p := Provider("shell", "1", true, "");
    w := World(Db(map["shell" := SeedRow(p)], {}), map["shell" := Live(p, true)]);
    UninstallAgrees(w, "shell");
  }

  // ---------------------------------------------------------------- tombstones

  // Uninstalled for good: no row, a tombstone, and no entry in memory.
  predicate Gone(w: World, n: string) {
    n !in w.db.rows && n in w.db.tombstones && n !in w.providers
  }

  predicate Revives(op: Op, n: string) {
    (op.Registers? && op.p.name == n) || (op.Restores? && op.name == n)
  }

  /** An uninstalled plugin stays away through any operations and any number of boots, until it is restored or registered. */
  lemma {:induction false} GoneStaysGone(w: World, ops: seq<Op>, n: string)
    requires Gone(w, n) && forall i | 0 <= i < |ops| :: !Revives(ops[i], n)
    ensures Gone(Run(w, ops), n)
  {
    if ops != [] {
      GoneStaysGone(w, ButLast(ops), n);
      assert !Revives(ops[|ops| - 1], n);
      if Last(ops).Restores? {
        FirstNamedName(Last(ops).builtins, Last(ops).name);
      }
    }
  }

  /** A tombstone without a row is enough: whatever memory held, the next boot leaves the plugin out. */
  lemma BootBuries(w: World, m: Manifests, n: string)
    requires n !in w.db.rows && n in w.db.tombstones
    ensures Gone(Boot(w.db, m), n)
  {
  }

  /** Uninstalling a bundled plugin and restoring it brings it back enabled, with the bundled manifest and no tombstone,
      and it survives the following boot with its manifest as then shipped. */
  lemma RestoreUndoesUninstall(w: World, builtins: seq<Provider>, n: string, m: Manifests)
    requires Sound(w) && !Required(w, n) && FirstNamed(builtins, n).Some?
    ensures
      var p := FirstNamed(builtins, n).value;
      var v := Restored(Uninstalled(w, n), builtins, n);
      && n in v.providers && v.providers[n] == Live(p, true) && n !in v.db.tombstones && Agree(v)
      && n in Boot(v.db, m).providers && Boot(v.db, m).providers[n] == Live(if n in m then m[n] else p, true)
      && forall k | k != n :: (k in v.providers <==> k in w.providers) && (k in w.providers ==> v.providers[k] == w.providers[k])
  {
    FirstNamedName(builtins, n);
    UninstallAgrees(w, n);
  }

  /** A removal that leaves no tombstone does not outlive the process: the next boot with the plugin's manifest seeds it again. */
  lemma RemovalWithoutTombstone(w: World, m: Manifests, n: string)
    requires Sound(w) && n in w.providers && !Required(w, n) && n !in w.db.tombstones
    ensures n !in Removed(w, n).providers
    ensures n in Boot(Removed(w, n).db, m).providers <==> n in m
  {
  }

  /** An uninstalled plugin is gone exactly if it was not a required one. */
  lemma UninstalledIsGone(w: World, n: string)
    ensures Gone(Uninstalled(w, n), n) <==> !(n in w.providers && w.providers[n].provider.required)
  {
  }

  /** A plugin switched on or off stays so through the next boot, whatever manifests it finds; the others stay as they were. */
  lemma ToggleOutlivesBoot(w: World, n: string, enabled: bool, m: Manifests, k: string)
    requires Sound(w) && n in w.providers && (enabled || !w.providers[n].provider.required) && k in w.providers
    ensures
      var v := Enabled(w, n, enabled);
      var b := Boot(v.db, m);
      && v.providers.Keys == w.providers.Keys && v.providers[k].provider == w.providers[k].provider
      && v.providers[k].enabled == (if k == n then enabled else w.providers[k].enabled)
      && k in b.providers && b.providers[k].enabled == v.providers[k].enabled
  {
    assert k in w.db.rows.Keys;
  }

  // ---------------------------------------------------------------- booting one manifest at a time

  lemma BootNothing(db: Db)
    requires Keyed(db)
    ensures Boot(db, map[]).db == db
    ensures Boot(db, map[]).providers
            == map n | n in db.rows && Readable(db, n) :: Live(db.rows[n].manifest.value, db.rows[n].enabled)
  {
    assert Boot(db, map[]).db.rows == db.rows;
  }

  // A known plugin is given the manifest at hand; its enabled flag stays.
  function Synced(w: World, p: Provider): World
    requires p.name in w.db.rows && p.name in w.providers
  {
    World(w.db.(rows := w.db.rows[p.name := w.db.rows[p.name].(manifest := Some(p), version := p.version)]),
          w.providers[p.name := w.providers[p.name].(provider := p)])
  }

  // A manifest matters to no other name.
  lemma BootElsewhere(db: Db, m: Manifests, p: Provider, n: string)
    requires n != p.name
    ensures
      var w, v := Boot(db, m), Boot(db, m[p.name := p]);
      && (n in v.db.rows <==> n in w.db.rows) && (n in w.db.rows ==> v.db.rows[n] == w.db.rows[n])
      && (n in v.providers <==> n in w.providers) && (n in w.providers ==> v.providers[n] == w.providers[n])
  {
  }

  lemma BootHere(db: Db, m: Manifests, p: Provider)
    requires p.name !in m
    ensures
      var n, w, v := p.name, Boot(db, m), Boot(db, m[p.name := p]);
      if Readable(db, n) then
        && n in w.db.rows && n in w.providers && n in v.db.rows && n in v.providers
        && v.db.rows[n] == w.db.rows[n].(manifest := Some(p), version := p.version)
        && v.providers[n] == w.providers[n].(provider := p)
      else if n in db.tombstones then
        && (n in v.db.rows <==> n in w.db.rows) && (n in w.db.rows ==> v.db.rows[n] == w.db.rows[n])
        && n !in v.providers && n !in w.providers
      else n in v.db.rows && n in v.providers && v.db.rows[n] == SeedRow(p) && v.providers[n] == Live(p, true)
  {
  }

  predicate SameAt(v: World, u: World, n: string) {
    && (n in v.db.rows <==> n in u.db.rows) && (n in u.db.rows ==> v.db.rows[n] == u.db.rows[n])
    && (n in v.providers <==> n in u.providers) && (n in u.providers ==> v.providers[n] == u.providers[n])
  }

  lemma SameWorlds(v: World, u: World)
    requires v.db.tombstones == u.db.tombstones && forall n :: SameAt(v, u, n)
    ensures v == u
  {
    forall n ensures (n in v.db.rows <==> n in u.db.rows) && (n in u.db.rows ==> v.db.rows[n] == u.db.rows[n]) {
      assert SameAt(v, u, n);
    }
    forall n ensures (n in v.providers <==> n in u.providers) && (n in u.providers ==> v.providers[n] == u.providers[n]) {
      assert SameAt(v, u, n);
    }
    assert v.db.rows == u.db.rows && v.providers == u.providers;
  }

  // What one more manifest makes of a booted world.
  predicate IsOneMore(db: Db, w: World, p: Provider, u: World) {
    if Readable(db, p.name) then p.name in w.db.rows && p.name in w.providers && u == Synced(w, p)
    else if p.name in db.tombstones then u == w
    else u == Registered(w, p)
  }

  lemma OneMoreAt(db: Db, m: Manifests, p: Provider, u: World, n: string)
    requires p.name !in m && IsOneMore(db, Boot(db, m), p, u)
    ensures SameAt(Boot(db, m[p.name := p]), u, n)
  {
    if n == p.name { BootHere(db, m, p); } else { BootElsewhere(db, m, p, n); }
  }

  /** Each further manifest is synced into a plugin that was loaded, skipped if tombstoned, and seeded otherwise. */
  lemma BootOneMore(db: Db, m: Manifests, p: Provider)
    requires p.name !in m
    ensures
      var w, v := Boot(db, m), Boot(db, m[p.name := p]);
      if Readable(db, p.name) then p.name in w.db.rows && p.name in w.providers && v == Synced(w, p)
      else if p.name in db.tombstones then v == w
      else v == Registered(w, p)
  {
    var w, v := Boot(db, m), Boot(db, m[p.name := p]);
    BootHere(db, m, p);
    var u := if Readable(db, p.name) then Synced(w, p) else if p.name in db.tombstones then w else Registered(w, p);
    assert IsOneMore(db, w, p, u);
    forall n ensures SameAt(v, u, n) {
      OneMoreAt(db, m, p, u, n);
    }
    SameWorlds(v, u);
  }

  // The manifests of the first i providers of a merged list.
  function FirstOf(m: Manifests, names: seq<string>): Manifests {
    map n | n in m && n in names :: m[n]
  }

  lemma FirstOfMore(m: Manifests, names: seq<string>, i: nat)
    requires i < |names| && names[i] in m && Ascending(names)
    ensures names[i] !in FirstOf(m, names[..i])
    ensures FirstOf(m, names[..i + 1]) == FirstOf(m, names[..i])[names[i] := m[names[i]]]
  {
    assert names[..i + 1] == names[..i] + [names[i]];
    forall j | 0 <= j < i ensures names[j] != names[i] {
      LessIsStrict(names[j], names[i]);
      assert Less(names[j], names[i]);
    }
  }

  // One turn of the loop over the merged list.
  lemma LoadStep(db: Db, m: Manifests, names: seq<string>, i: nat, p: Provider)
    requires i < |names| && names[i] == p.name && p.name in m && m[p.name] == p && Ascending(names)
    ensures
      var w, v := Boot(db, FirstOf(m, names[..i])), Boot(db, FirstOf(m, names[..i + 1]));
      if Readable(db, p.name) then p.name in w.db.rows && p.name in w.providers && v == Synced(w, p)
      else if p.name in db.tombstones then v == w
      else v == Registered(w, p)
  {
    FirstOfMore(m, names, i);
    BootOneMore(db, FirstOf(m, names[..i]), p);
  }

  // ---------------------------------------------------------------- the runtime object

  class Runtime {
    var db: Db
    var providers: map<string, Live>

    ghost function Abs(): World
      reads this
    {
      World(db, providers)
    }

    constructor (db: Db)
      ensures Abs() == World(db, map[])
    {
      this.db, providers := db, map[];
    }

    // The rows, decoded into memory.
    method LoadRows() returns (loaded: set<string>)
      requires providers == map[] && Keyed(db)
      modifies this`providers
      ensures loaded == set n | n in db.rows && Readable(db, n)
      ensures providers == map n | n in db.rows && Readable(db, n) :: Live(db.rows[n].manifest.value, db.rows[n].enabled)
    {
      var names := SortedKeys(db.rows.Keys);
      loaded := {};
      for i := 0 to |names|
        invariant forall n :: n in loaded <==> n in names[..i] && Readable(db, n)
        invariant providers.Keys == loaded
        invariant forall n | n in providers :: providers[n] == Live(db.rows[n].manifest.value, db.rows[n].enabled)
      {
        assert names[i] in names && names[..i + 1] == names[..i] + [names[i]];
        var row := db.rows[names[i]];
        if row.manifest.Some? {
          var p := row.manifest.value;
          providers := providers[p.name := Live(p, row.enabled)];
          loaded := loaded + {p.name};
        }
      }
      assert names[..|names|] == names;
    }

    method Seed(p: Provider)
      modifies this
      ensures Abs() == Registered(old(Abs()), p)
      ensures providers == old(providers)[p.name := Live(p, true)]
      ensures db == Db(old(db).rows[p.name := Row(Some(p), p.version, true)], old(db).tombstones)
    {
      db := Db(db.rows[p.name := Row(Some(p), p.version, true)], db.tombstones);
      providers := providers[p.name := Live(p, true)];
    }

    // One manifest of the merged list: sync it, skip it, or seed it.
    method LoadOne(p: Provider, loaded: bool, tombstoned: bool)
      requires loaded ==> p.name in db.rows && p.name in providers
      modifies this
      ensures Abs() == if loaded then Synced(old(Abs()), p) else if tombstoned then old(Abs()) else Registered(old(Abs()), p)
    {
      if loaded {
        db := Db(db.rows[p.name := db.rows[p.name].(manifest := Some(p), version := p.version)], db.tombstones);
        providers := providers[p.name := providers[p.name].(provider := p)];
        return;
      }
      if tombstoned {
        return;
      }
      Seed(p);
    }

    // The loop over the merged list.
    method LoadMerged(ghost before: Db, ghost m: Manifests, merged: seq<Provider>, loaded: set<string>, tombstones: set<string>)
      requires Abs() == Boot(before, map[]) && Ascending(Names(merged)) && tombstones == before.tombstones
      requires forall i | 0 <= i < |merged| :: merged[i].name in m && m[merged[i].name] == merged[i]
      requires forall n :: n in loaded <==> Readable(before, n)
      modifies this
      ensures Abs() == Boot(before, FirstOf(m, Names(merged)))
    {
      ghost var names := Names(merged);
      assert FirstOf(m, names[..0]) == map[];
      for i := 0 to |merged|
        invariant Abs() == Boot(before, FirstOf(m, names[..i]))
      {
        var p := merged[i];
        LoadStep(before, m, names, i, p);
        LoadOne(p, p.name in loaded, p.name in tombstones);
      }
      assert names[..|names|] == names;
    }

    /** `LoadAll`, in a fresh process. */
    method LoadAll(embedded: seq<Provider>, overlay: seq<Provider>)
      requires providers == map[] && Keyed(db)
      modifies this
      ensures Abs() == Boot(old(db), ByName(embedded) + ByName(overlay))
    {
      ghost var before := db;
      ghost var m := ByName(embedded) + ByName(overlay);
      var tombstones := db.tombstones;
      var loaded := LoadRows();
      BootNothing(before);
      var merged := MergeProviders(embedded, overlay);
      LoadMerged(before, m, merged, loaded, tombstones);
      assert FirstOf(m, Names(merged)) == m;
    }

    method Register(p: Provider)
      modifies this
      ensures Abs() == Registered(old(Abs()), p)
      ensures providers == old(providers)[p.name := Live(p, true)]
      ensures db == Db(old(db).rows[p.name := Row(Some(p), p.version, true)], old(db).tombstones)
    {
      Seed(p);
    }

    method SetEnabled(n: string, enabled: bool) returns (err: Option<Error>)
      modifies this
      ensures err == EnableError(old(Abs()), n, enabled) && Abs() == Enabled(old(Abs()), n, enabled)
      ensures err == Some(NotFound) <==> n !in old(providers)
      ensures err == Some(RequiredPlugin) <==> n in old(providers) && !enabled && old(providers)[n].provider.required
      ensures err.Some? ==> Abs() == old(Abs()) && err.value in {NotFound, RequiredPlugin}
      ensures err.None? ==> providers == old(providers)[n := old(providers)[n].(enabled := enabled)]
      ensures err.None? && n in old(db).rows ==>
                db == Db(old(db).rows[n := old(db).rows[n].(enabled := enabled)], old(db).tombstones)
      ensures err.None? && n !in old(db).rows ==> db == old(db)
    {
      if n !in providers {
        return Some(NotFound);
      }
      var lp := providers[n];
      if !enabled && lp.provider.required {
        return Some(RequiredPlugin);
      }
      providers := providers[n := lp.(enabled := enabled)];
      if n in db.rows {
        db := Db(db.rows[n := db.rows[n].(enabled := enabled)], db.tombstones);
      }
      return None;
    }

    method Remove(n: string) returns (err: Option<Error>)
      modifies this
      ensures err == RemoveError(old(Abs()), n) && Abs() == Removed(old(Abs()), n)
      ensures err == Some(NotFound) <==> n !in old(providers)
      ensures err == Some(RequiredPlugin) <==> n in old(providers) && old(providers)[n].provider.required
      ensures err.Some? ==> Abs() == old(Abs()) && err.value in {NotFound, RequiredPlugin}
      ensures err.None? ==> providers == old(providers) - {n} && db == Db(old(db).rows - {n}, old(db).tombstones)
    {
      if n !in providers {
        return Some(NotFound);
      }
      if providers[n].provider.required {
        return Some(RequiredPlugin);
      }
      providers := providers - {n};
      db := Db(db.rows - {n}, db.tombstones);
      return None;
    }

    /** The installer's `Uninstall`, as far as the registry and its tables go. */
    method Uninstall(n: string)
      modifies this
      ensures Abs() == Uninstalled(old(Abs()), n)
      ensures db == Db(old(db).rows - {n}, old(db).tombstones + {n})
      ensures providers == if n in old(providers) && old(providers)[n].provider.required then old(providers) else old(providers) - {n}
    {
      var _ := Remove(n);
      db := Db(db.rows - {n}, db.tombstones);
      db := Db(db.rows, db.tombstones + {n});
    }

    method RestoreBuiltin(builtins: seq<Provider>, n: string) returns (err: Option<Error>)
      modifies this
      ensures err == RestoreError(old(Abs()), builtins, n) && Abs() == Restored(old(Abs()), builtins, n)
      ensures err == Some(NotBuiltin) <==> forall i | 0 <= i < |builtins| :: builtins[i].name != n
      ensures err.Some? && err != Some(NotBuiltin) ==> err == Some(AlreadyInstalled) && n in old(providers)
      ensures err.Some? ==> Abs() == old(Abs())
      ensures err.None? ==> n !in old(providers) && n !in db.tombstones && n in providers && n in db.rows
      ensures err.None? ==> exists i :: IsFirstNamed(builtins, n, i) && providers[n] == Live(builtins[i], true)
                                        && db.rows[n] == Row(Some(builtins[i]), builtins[i].version, true)
    {
      FirstNamedName(builtins, n);
      var target: Option<Provider> := None;
      assert builtins[0..] == builtins;
      var i := 0;
      while i < |builtins| && target.None?
        invariant i <= |builtins|
        invariant FirstNamed(builtins, n) == if target.Some? then target else FirstNamed(builtins[i..], n)
      {
        assert builtins[i..][1..] == builtins[i + 1..];
        if builtins[i].name == n {
          target := Some(builtins[i]);
        }
        i := i + 1;
      }
      if target.None? {
        return Some(NotBuiltin);
      }
      if n in providers {
        return Some(AlreadyInstalled);
      }
      db := Db(db.rows, db.tombstones - {n});
      Seed(target.value);
      return None;
    }
  }
}
