/**
 * The zone loop of `async_run` (bin/src/hickory-dns.rs): each configured
 * zone, in order, has its name read and is loaded from the zone directory,
 * and the loaded authority is upserted into the catalog under the name's
 * lower-case form. The first zone
 * whose name cannot be read or that fails to load ends startup.
 */
module ZoneCatalog {
  import opened Basics
  import opened Host
  import opened ServerConfig

  /**
   * The catalog: zone key to the position, in the configuration, of the zone
   * whose authority it serves. `Catalog::upsert` takes a `LowerName`, so two
   * names that differ only in ASCII case share one entry.
   */
  type Catalog = map<string, nat>

  /** ASCII lower case, as `LowerName` applies it to each label; other characters are kept. */
  function LowerAscii(c: char): (d: char)
    ensures 'A' <= c <= 'Z' ==> 'a' <= d <= 'z' && d as int - c as int == 32
    ensures !('A' <= c <= 'Z') ==> d == c
  {
    if 'A' <= c <= 'Z' then (c as int + 32) as char else c
  }

  /** `LowerName::from(name)`: the key under which the catalog holds a zone. */
  function ZoneKey(name: string): (key: string)
    ensures |key| == |name|
    ensures forall i :: 0 <= i < |name| ==> key[i] == LowerAscii(name[i])
  {
    seq(|name|, i requires 0 <= i < |name| => LowerAscii(name[i]))
  }

  /** Two names share a key exactly when they agree character by character once lowered. */
  lemma SameKey(a: string, b: string)
    ensures ZoneKey(a) == ZoneKey(b) <==> |a| == |b| && forall i :: 0 <= i < |a| ==> LowerAscii(a[i]) == LowerAscii(b[i])
  {
    if |a| == |b| && forall i :: 0 <= i < |a| ==> LowerAscii(a[i]) == LowerAscii(b[i]) {
      assert forall i :: 0 <= i < |a| ==> ZoneKey(a)[i] == ZoneKey(b)[i];
    }
  }

  /** A key is already lower case: lowering it again changes nothing. */
  lemma KeyIdempotent(name: string)
    ensures ZoneKey(ZoneKey(name)) == ZoneKey(name)
  {
    var key := ZoneKey(name);
    assert forall i :: 0 <= i < |key| ==> ZoneKey(key)[i] == key[i];
  }

  lemma KeyIgnoresCase()
    ensures ZoneKey("Example.COM.") == ZoneKey("example.com.")
    ensures ZoneKey("example.com.") != ZoneKey("example.org.")
  {
    SameKey("Example.COM.", "example.com.");
    assert ZoneKey("example.com.")[8] == 'c' && ZoneKey("example.org.")[8] == 'o';
  }

  /** Zone `z` has a readable name whose key is `key`. */
  predicate HasKey(z: ZoneConfig, key: string)
  {
    z.name.Some? && ZoneKey(z.name.value) == key
  }

  /** A specification's account of an operation: what it issued and what it returned. */
  datatype Run<T> = Run(effects: seq<Effect>, result: Result<T, StartupError>)

  predicate AllNamed(zones: seq<ZoneConfig>)
  {
    forall k :: 0 <= k < |zones| ==> zones[k].name.Some?
  }

  /** The loads of a list of zones whose names can all be read, in order. */
  function Loads(zones: seq<ZoneConfig>, dir: string): (r: seq<Effect>)
    requires AllNamed(zones)
    ensures |r| == |zones|
  {
    if zones == [] then [] else Loads(zones[..|zones| - 1], dir) + [LoadZone(zones[|zones| - 1].name.value, dir)]
  }

  /** `Catalog::upsert` for each zone in turn. */
  function Upserted(zones: seq<ZoneConfig>): Catalog
    requires AllNamed(zones)
  {
    if zones == [] then map[]
    else Upserted(zones[..|zones| - 1])[ZoneKey(zones[|zones| - 1].name.value) := |zones| - 1]
  }

  /**
   * Upsert keeps the last zone of each key: a key is in the catalog exactly
   * when some zone's name lowers to it, and it maps to the last such zone.
   */
  lemma {:induction false} LastZoneWins(zones: seq<ZoneConfig>, key: string)
    requires AllNamed(zones)
    ensures key in Upserted(zones) <==> exists k :: 0 <= k < |zones| && HasKey(zones[k], key)
    ensures key in Upserted(zones) ==>
      var k := Upserted(zones)[key];
      && k < |zones| && HasKey(zones[k], key)
      && forall j :: k < j < |zones| ==> !HasKey(zones[j], key)
    decreases |zones|
  {
    if zones != [] {
      var n := |zones| - 1;
      var init := zones[..n];
      assert forall k :: 0 <= k < n ==> init[k] == zones[k];
      LastZoneWins(init, key);
      if !HasKey(zones[n], key) && exists k :: 0 <= k < |zones| && HasKey(zones[k], key) {
        var k :| 0 <= k < |zones| && HasKey(zones[k], key);
        assert HasKey(init[k], key);
      }
    }
  }

  /** The zone loop: what it loads and what it returns, for an oracle deciding each load. */
  function CatalogRun(zones: seq<ZoneConfig>, dir: string, ok: Oracle, pos: nat): (r: Run<Catalog>)
    ensures r.result.Err? ==> r.result.error.ZoneNameUnreadable? || r.result.error.ZoneLoadFailed?
    decreases |zones|
  {
    if zones == [] then Run([], Ok(map[]))
    else
      var n := |zones| - 1;
      var prev := CatalogRun(zones[..n], dir, ok, pos);
      if prev.result.Err? then prev
      else match zones[n].name
        case None => Run(prev.effects, Err(ZoneNameUnreadable(n)))
        case Some(name) =>
          var load := LoadZone(name, dir);
          if ok(pos + |prev.effects|, load) then Run(prev.effects + [load], Ok(prev.result.value[ZoneKey(name) := n]))
          else Run(prev.effects + [load], Err(ZoneLoadFailed(n, name)))
  }

  /**
   * The zone loop succeeds exactly when every zone name can be read and
   * every load succeeds; it has then loaded every zone in order and built
   * the upserted catalog.
   */
  lemma {:induction false} CatalogSucceeds(zones: seq<ZoneConfig>, dir: string, ok: Oracle, pos: nat)
    ensures SucceedsAsPlanned(zones, dir, ok, pos)
    decreases |zones|
  {
    if zones != [] {
      CatalogSucceeds(zones[..|zones| - 1], dir, ok, pos);
      SucceedsStep(zones, dir, ok, pos);
    }
  }

  /** The zone loop succeeds exactly when every zone loads, and then it has loaded them all and upserted them. */
  predicate SucceedsAsPlanned(zones: seq<ZoneConfig>, dir: string, ok: Oracle, pos: nat)
  {
    var r := CatalogRun(zones, dir, ok, pos);
    && (r.result.Ok? <==> AllNamed(zones) && Completes(Loads(zones, dir), ok, pos))
    && (r.result.Ok? ==> r.effects == Loads(zones, dir) && r.result.value == Upserted(zones))
  }

  lemma SucceedsStep(zones: seq<ZoneConfig>, dir: string, ok: Oracle, pos: nat)
    requires zones != [] && SucceedsAsPlanned(zones[..|zones| - 1], dir, ok, pos)
    ensures SucceedsAsPlanned(zones, dir, ok, pos)
  {
    var init := zones[..|zones| - 1];
    if AllNamed(zones) {
      LoadsExtend(zones, dir, ok, pos);
    } else if CatalogRun(init, dir, ok, pos).result.Ok? {
      assert AllNamed(init);
    }
  }

  /**
   * A failing zone loop stops at the first zone `k` that fails and reports
   * it; it has loaded exactly the zones before `k`, and attempted `k`
   * itself when its name could be read.
   */
  lemma {:induction false} CatalogFails(zones: seq<ZoneConfig>, dir: string, ok: Oracle, pos: nat)
    ensures var r := CatalogRun(zones, dir, ok, pos);
      r.result.Err? ==> FailsAt(zones, dir, ok, pos, r, r.result.error.zone)
    decreases |zones|
  {
    if zones != [] {
      var n := |zones| - 1;
      var init := zones[..n];
      CatalogFails(init, dir, ok, pos);
      var prev := CatalogRun(init, dir, ok, pos);
      if prev.result.Err? {
        FailsAtExtends(zones, dir, ok, pos, prev, prev.result.error.zone);
      } else {
        CatalogSucceeds(init, dir, ok, pos);
        assert zones[..n] == init;
      }
    }
  }

  /** The loads of `zones` are those of all but the last zone, then the last one. */
  lemma LoadsExtend(zones: seq<ZoneConfig>, dir: string, ok: Oracle, pos: nat)
    requires zones != [] && AllNamed(zones)
    ensures AllNamed(zones[..|zones| - 1])
    ensures var n := |zones| - 1;
      Completes(Loads(zones, dir), ok, pos) <==>
        Completes(Loads(zones[..n], dir), ok, pos) && ok(pos + n, LoadZone(zones[n].name.value, dir))
  {
    var n := |zones| - 1;
    assert AllNamed(zones[..n]) by {
      forall k | 0 <= k < n ensures zones[..n][k].name.Some? {
        assert zones[..n][k] == zones[k];
      }
    }
    var last := LoadZone(zones[n].name.value, dir);
    AttemptAppend(Loads(zones[..n], dir), [last], ok, pos);
    AttemptOne(last, ok, pos + n);
  }

  /** The run `r` stopped at zone `k`: everything before it loaded, and `k` is the zone reported. */
  predicate FailsAt(zones: seq<ZoneConfig>, dir: string, ok: Oracle, pos: nat, r: Run<Catalog>, k: nat)
  {
    && r.result.Err?
    && k < |zones|
    && AllNamed(zones[..k])
    && Completes(Loads(zones[..k], dir), ok, pos)
    && match zones[k].name
      case None => r == Run(Loads(zones[..k], dir), Err(ZoneNameUnreadable(k)))
      case Some(name) =>
        && !ok(pos + k, LoadZone(name, dir))
        && r == Run(Loads(zones[..k], dir) + [LoadZone(name, dir)], Err(ZoneLoadFailed(k, name)))
  }

  lemma FailsAtExtends(zones: seq<ZoneConfig>, dir: string, ok: Oracle, pos: nat, r: Run<Catalog>, k: nat)
    requires zones != [] && FailsAt(zones[..|zones| - 1], dir, ok, pos, r, k)
    ensures FailsAt(zones, dir, ok, pos, r, k)
  {
    assert zones[..|zones| - 1][..k] == zones[..k];
    assert zones[..|zones| - 1][k] == zones[k];
  }

  /** Once the loop has failed, the remaining zones change nothing. */
  lemma {:induction false} CatalogErrorSticks(zones: seq<ZoneConfig>, i: nat, dir: string, ok: Oracle, pos: nat)
    requires i <= |zones| && CatalogRun(zones[..i], dir, ok, pos).result.Err?
    ensures CatalogRun(zones, dir, ok, pos) == CatalogRun(zones[..i], dir, ok, pos)
    decreases |zones| - i
  {
    if i < |zones| {
      var n := |zones| - 1;
      assert zones[..n][..i] == zones[..i];
      CatalogErrorSticks(zones[..n], i, dir, ok, pos);
    } else {
      assert zones[..i] == zones;
    }
  }

  /** The zone loop issues zone loads and nothing else. */
  lemma {:induction false} CatalogOnlyLoads(zones: seq<ZoneConfig>, dir: string, ok: Oracle, pos: nat)
    ensures AllLoads(CatalogRun(zones, dir, ok, pos).effects)
    decreases |zones|
  {
    if zones != [] {
      var prev := CatalogRun(zones[..|zones| - 1], dir, ok, pos);
      CatalogOnlyLoads(zones[..|zones| - 1], dir, ok, pos);
      if prev.result.Ok? && zones[|zones| - 1].name.Some? {
        var r := CatalogRun(zones, dir, ok, pos);
        assert r.effects == prev.effects + [LoadZone(zones[|zones| - 1].name.value, dir)];
        assert forall k :: 0 <= k < |prev.effects| ==> r.effects[k] == prev.effects[k];
      }
    }
  }

  /** Every effect is a zone load. */
  predicate AllLoads(effects: seq<Effect>)
  {
    forall k :: 0 <= k < |effects| ==> effects[k].LoadZone?
  }

  /** One more zone of the loop, after the zones before it all loaded. */
  lemma CatalogNext(zones: seq<ZoneConfig>, i: nat, dir: string, ok: Oracle, pos: nat)
    requires i < |zones| && CatalogRun(zones[..i], dir, ok, pos).result.Ok?
    ensures var prev := CatalogRun(zones[..i], dir, ok, pos);
      var r := CatalogRun(zones[..i + 1], dir, ok, pos);
      match zones[i].name
      case None => r == Run(prev.effects, Err(ZoneNameUnreadable(i)))
      case Some(name) =>
        var load := LoadZone(name, dir);
        r == if ok(pos + |prev.effects|, load) then Run(prev.effects + [load], Ok(prev.result.value[ZoneKey(name) := i]))
          else Run(prev.effects + [load], Err(ZoneLoadFailed(i, name)))
  {
    assert zones[..i + 1][..i] == zones[..i];
  }

  /** The zone loop of `async_run`, with the catalog upserted as each zone loads. */
  method BuildCatalog(host: Host, zones: seq<ZoneConfig>, dir: string) returns (r: Result<Catalog, StartupError>)
    modifies host
    ensures var run := CatalogRun(zones, dir, host.ok, |old(host.trace)|);
      host.trace == old(host.trace) + run.effects && r == run.result
    ensures host.ids == old(host.ids)
  {
    ghost var pos := |host.trace|;
    var catalog: Catalog := map[];
    for i := 0 to |zones|
      invariant host.trace == old(host.trace) + CatalogRun(zones[..i], dir, host.ok, pos).effects
      invariant CatalogRun(zones[..i], dir, host.ok, pos).result == Ok(catalog)
      invariant host.ids == old(host.ids)
    {
      var next := LoadNext(host, zones, i, dir, catalog, old(host.trace));
      if next.Err? {
        return next;
      }
      catalog := next.value;
    }
    assert zones[..|zones|] == zones;
    r := Ok(catalog);
  }

  /** One turn of the zone loop: reads the name of zone `i`, loads it and upserts it into `catalog`. */
  method LoadNext(host: Host, zones: seq<ZoneConfig>, i: nat, dir: string, catalog: Catalog, ghost start: seq<Effect>)
    returns (r: Result<Catalog, StartupError>)
    requires i < |zones|
    requires CatalogRun(zones[..i], dir, host.ok, |start|).result == Ok(catalog)
    requires host.trace == start + CatalogRun(zones[..i], dir, host.ok, |start|).effects
    modifies host
    ensures var run := CatalogRun(zones[..i + 1], dir, host.ok, |start|);
      host.trace == start + run.effects && r == run.result
    ensures r.Err? ==> CatalogRun(zones, dir, host.ok, |start|) == CatalogRun(zones[..i + 1], dir, host.ok, |start|)
    ensures host.ids == old(host.ids)
  {
    CatalogNext(zones, i, dir, host.ok, |start|);
    match zones[i].name {
      case None =>
        r := Err(ZoneNameUnreadable(i));
      case Some(name) =>
        var loaded := host.Perform(LoadZone(name, dir));
        if !loaded {
          r := Err(ZoneLoadFailed(i, name));
        } else {
          r := Ok(catalog[ZoneKey(name) := i]);
        }
    }
    if r.Err? {
      CatalogErrorSticks(zones, i + 1, dir, host.ok, |start|);
    }
  }
}
