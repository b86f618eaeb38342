/**
 * The aggregation rules of JsonUtil.java's metrics document: the
 * "Data unavailable" substitutions, the player section with its world save
 * names, the server section, the per-world entity counts with their total and
 * per-type summary, and the placeholder network statistics. The Minecraft
 * server is given as a value that holds what the code reads from it.
 */
module MetricsReport {
  import opened Base
  import opened Json
  import opened TickSampling

  /** An entity as iterated from a world: None is a null entry, otherwise its type id. */
  type Entity = Option<string>

  datatype World = World(id: string, entities: seq<Entity>)

  /**
   * An online player. `handler` is the latency of its network handler, None when
   * the handler is null; `saveName` is the level name read via the player's
   * world, None when that read throws.
   */
  datatype Player = Player(
    name: string,
    handler: Option<int>,
    dimensionId: string,
    dimensionPath: string,
    saveName: Option<string>)

  datatype Overworld = Overworld(timeOfDay: int, chunksLoaded: int)

  /** The server as the metrics code sees it; `players` is None for a null player manager. */
  datatype Server = Server(
    ticks: int,
    version: string,
    overworld: Option<Overworld>,
    players: Option<seq<Player>>,
    worlds: seq<World>)

  const Unavailable: JsonValue := JStr(DataUnavailable)
  const MsPerTick: int := 50
  const PlaceholderPackets: int := 1000

  // ---------------------------------------------------------------- scalars

  /** A double that may be NaN (None), as the document reports it. */
  function Reported(v: Option<real>): (j: JsonValue)
    ensures j == Unavailable <==> v.None?
    ensures v.Some? ==> j == JReal(v.value)
  {
    if v.None? then Unavailable else JReal(v.value)
  }

  /** `server.getTicks() * 50L`: an int tick count widened to long, so never overflowing. */
  function UptimeMs(ticks: int): (ms: int)
    requires -0x8000_0000 <= ticks < 0x8000_0000
    ensures ms % MsPerTick == 0 && ms / MsPerTick == ticks
    ensures -0x8000_0000_0000_0000 <= ms < 0x8000_0000_0000_0000
  {
    ticks * MsPerTick
  }

  /** `Math.round` on an exact value: the nearest integer, halves rounded up. */
  function RoundHalfUp(x: real): (r: int)
    ensures x - 0.5 < r as real <= x + 0.5
  {
    (x + 0.5).Floor
  }

  // ---------------------------------------------------------------- players

  /** The world save name BlueMap expects for a player's dimension. */
  function WorldSaveName(saveName: Option<string>, dimensionPath: string): (r: string)
    ensures saveName.Some? && dimensionPath == "the_nether" ==> r == saveName.value + "_the_nether"
    ensures saveName.Some? && dimensionPath == "the_end" ==> r == saveName.value + "_the_end"
    ensures saveName.Some? && dimensionPath != "the_nether" && dimensionPath != "the_end" ==> r == saveName.value
    ensures saveName.None? && dimensionPath == "overworld" ==> r == "world"
    ensures saveName.None? && dimensionPath == "the_nether" ==> r == "world_the_nether"
    ensures saveName.None? && dimensionPath == "the_end" ==> r == "world_the_end"
    ensures saveName.None? && dimensionPath !in {"overworld", "the_nether", "the_end"} ==> r == dimensionPath
  {
    match saveName
    case Some(name) =>
      if dimensionPath == "the_nether" then name + "_the_nether"
      else if dimensionPath == "the_end" then name + "_the_end"
      else name
    case None =>
      if dimensionPath == "overworld" then "world"
      else if dimensionPath == "the_nether" then "world_the_nether"
      else if dimensionPath == "the_end" then "world_the_end"
      else dimensionPath
  }

  /**
   * The fallback agrees with a save called "world" exactly on the three vanilla
   * dimensions (and on a dimension that is itself called "world").
   */
  lemma FallbackMatchesDefaultSave(dimensionPath: string)
    ensures WorldSaveName(None, dimensionPath) == WorldSaveName(Some("world"), dimensionPath)
        <==> dimensionPath in {"overworld", "the_nether", "the_end", "world"}
  {
    if dimensionPath == "the_nether" {
      assert WorldSaveName(Some("world"), dimensionPath) == "world" + "_the_nether";
    } else if dimensionPath == "the_end" {
      assert WorldSaveName(Some("world"), dimensionPath) == "world" + "_the_end";
    }
  }

  predicate AllHandlers(players: seq<Player>)
  {
    forall i :: 0 <= i < |players| ==> players[i].handler.Some?
  }

  function LatencySum(players: seq<Player>): int
    requires AllHandlers(players)
  {
    if players == [] then 0
    else LatencySum(players[..|players| - 1]) + players[|players| - 1].handler.value
  }

  /** The details of one player; None when its network handler is null (the read throws). */
  function PlayerDetails(p: Player): (j: Option<JsonValue>)
    ensures j.Some? <==> p.handler.Some?
    ensures j.Some? ==> j.value.JObject? && j.value.fields.Keys == {"name", "ping", "location"}
    ensures j.Some? ==> j.value.fields["name"] == JStr(p.name)
    ensures j.Some? ==> j.value.fields["ping"] == JInt(p.handler.value)
    ensures j.Some? ==>
              (j.value.fields["location"] ==
                 JObject(map["dimension" := JStr(p.dimensionId),
                             "world_save_name" := JStr(WorldSaveName(p.saveName, p.dimensionPath))]))
  {
    if p.handler.None? then None
    else
      Some(JObject(map[
        "name" := JStr(p.name),
        "ping" := JInt(p.handler.value),
        "location" := JObject(map[
          "dimension" := JStr(p.dimensionId),
          "world_save_name" := JStr(WorldSaveName(p.saveName, p.dimensionPath))])]))
  }

  // ---------------------------------------------------------------- entities

  function NonNullCount(es: seq<Entity>): (n: nat)
    ensures n <= |es|
  {
    if es == [] then 0
    else NonNullCount(es[..|es| - 1]) + (if es[|es| - 1].Some? then 1 else 0)
  }

  function CountOr0(m: map<string, int>, k: string): int
  {
    if k in m then m[k] else 0
  }

  /** A world's per-type counts, built as the inner loop's `getOrDefault(type, 0) + 1` does. */
  function TypeCounts(es: seq<Entity>): map<string, int>
  {
    if es == [] then map[]
    else
      var prefix := TypeCounts(es[..|es| - 1]);
      var e := es[|es| - 1];
      if e.None? then prefix else prefix[e.value := CountOr0(prefix, e.value) + 1]
  }

  /** The per-world map: a later world with the same id replaces an earlier one. */
  function ByWorld(ws: seq<World>): (bw: map<string, map<string, int>>)
    ensures bw.Keys == set i | 0 <= i < |ws| :: ws[i].id
  {
    if ws == [] then map[]
    else ByWorld(ws[..|ws| - 1])[ws[|ws| - 1].id := TypeCounts(ws[|ws| - 1].entities)]
  }

  function TotalEntities(ws: seq<World>): nat
  {
    if ws == [] then 0
    else TotalEntities(ws[..|ws| - 1]) + NonNullCount(ws[|ws| - 1].entities)
  }

  /** The sum of a map's values, in no particular order. */
  ghost function SumValues(m: map<string, int>): int
    decreases |m|
  {
    if m == map[] then 0
    else
      var k :| k in m;
      m[k] + SumValues(m - {k})
  }

  /** A sum over a map may take out any key first. */
  lemma {:induction false} SumValuesAt(m: map<string, int>, k: string)
    requires k in m
    ensures SumValues(m) == m[k] + SumValues(m - {k})
    decreases |m|
  {
    var j :| j in m && SumValues(m) == m[j] + SumValues(m - {j});
    if j != k {
      SumValuesAt(m - {j}, k);
      SumValuesAt(m - {k}, j);
      assert m - {j} - {k} == m - {k} - {j};
    }
  }

  lemma SumValuesAdd(m: map<string, int>, k: string, v: int)
    requires k !in m
    ensures SumValues(m[k := v]) == SumValues(m) + v
  {
    SumValuesAt(m[k := v], k);
    assert m[k := v] - {k} == m;
  }

  lemma SumValuesBump(m: map<string, int>, k: string)
    ensures SumValues(m[k := CountOr0(m, k) + 1]) == SumValues(m) + 1
  {
    if k in m {
      SumValuesAt(m, k);
      SumValuesAt(m[k := m[k] + 1], k);
      assert m[k := m[k] + 1] - {k} == m - {k};
    } else {
      SumValuesAdd(m, k, 1);
    }
  }

  /** Each world's per-type counts add up to that world's non-null entity count. */
  lemma {:induction false} TypeCountsSumToWorldCount(es: seq<Entity>)
    ensures SumValues(TypeCounts(es)) == NonNullCount(es)
  {
    if es != [] {
      var prefix := es[..|es| - 1];
      TypeCountsSumToWorldCount(prefix);
      var e := es[|es| - 1];
      if e.Some? {
        SumValuesBump(TypeCounts(prefix), e.value);
      }
    }
  }

  /** A type's entry in the per-type counts is the number of entities of that type. */
  lemma {:induction false} TypeCountsAreMultiplicities(es: seq<Entity>, t: string)
    ensures CountOr0(TypeCounts(es), t) == multiset(es)[Some(t)]
    ensures t in TypeCounts(es) <==> Some(t) in es
  {
    if es != [] {
      var prefix := es[..|es| - 1];
      TypeCountsAreMultiplicities(prefix, t);
      assert es == prefix + [es[|es| - 1]];
      assert multiset(es) == multiset(prefix) + multiset{es[|es| - 1]};
    }
  }

  /** One type's count in every world the per-world map keeps. */
  ghost function Column(bw: map<string, map<string, int>>, t: string): map<string, int>
  {
    map w | w in bw :: CountOr0(bw[w], t)
  }

  lemma ColumnExtend(bw: map<string, map<string, int>>, w: string, row: map<string, int>, t: string)
    requires w !in bw
    ensures SumValues(Column(bw[w := row], t)) == SumValues(Column(bw, t)) + CountOr0(row, t)
  {
    assert Column(bw[w := row], t) == Column(bw, t)[w := CountOr0(row, t)];
    SumValuesAdd(Column(bw, t), w, CountOr0(row, t));
  }

  /** The types that occur in some world of a per-world map. */
  ghost function Types(bw: map<string, map<string, int>>): set<string>
  {
    set w, t | w in bw && t in bw[w] :: t
  }

  predicate DistinctIds(ws: seq<World>)
  {
    forall i, j :: 0 <= i < j < |ws| ==> ws[i].id != ws[j].id
  }

  function EntitiesOfType(ws: seq<World>, t: string): nat
  {
    if ws == [] then 0
    else EntitiesOfType(ws[..|ws| - 1], t) + multiset(ws[|ws| - 1].entities)[Some(t)]
  }

  /**
   * With distinct world ids, a type's summed column is the number of entities
   * of that type across all worlds.
   */
  lemma {:induction false} ColumnCountsAllWorlds(ws: seq<World>, t: string)
    requires DistinctIds(ws)
    ensures SumValues(Column(ByWorld(ws), t)) == EntitiesOfType(ws, t)
  {
    if ws != [] {
      var prefix := ws[..|ws| - 1];
      var last := ws[|ws| - 1];
      assert DistinctIds(prefix);
      ColumnCountsAllWorlds(prefix, t);
      assert last.id !in ByWorld(prefix) by {
        forall i | 0 <= i < |prefix| ensures prefix[i].id != last.id {
          assert prefix[i] == ws[i];
        }
      }
      ColumnExtend(ByWorld(prefix), last.id, TypeCounts(last.entities), t);
      TypeCountsAreMultiplicities(last.entities, t);
    }
  }

  /** Each kept world's entity count, as the sum of its per-type counts. */
  ghost function WorldTotals(bw: map<string, map<string, int>>): map<string, int>
  {
    map w | w in bw :: SumValues(bw[w])
  }

  lemma WorldTotalsExtend(bw: map<string, map<string, int>>, w: string, row: map<string, int>)
    requires w !in bw
    ensures SumValues(WorldTotals(bw[w := row])) == SumValues(WorldTotals(bw)) + SumValues(row)
  {
    assert WorldTotals(bw[w := row]) == WorldTotals(bw)[w := SumValues(row)];
    SumValuesAdd(WorldTotals(bw), w, SumValues(row));
  }

  /** With distinct world ids, the per-world counts add up to the total. */
  lemma {:induction false} WorldsSumToTotal(ws: seq<World>)
    requires DistinctIds(ws)
    ensures SumValues(WorldTotals(ByWorld(ws))) == TotalEntities(ws)
  {
    if ws != [] {
      var prefix := ws[..|ws| - 1];
      var last := ws[|ws| - 1];
      assert DistinctIds(prefix);
      WorldsSumToTotal(prefix);
      assert last.id !in ByWorld(prefix) by {
        forall i | 0 <= i < |prefix| ensures prefix[i].id != last.id {
          assert prefix[i] == ws[i];
        }
      }
      var row := TypeCounts(last.entities);
      assert ByWorld(ws) == ByWorld(prefix)[last.id := row];
      WorldTotalsExtend(ByWorld(prefix), last.id, row);
      TypeCountsSumToWorldCount(last.entities);
    }
  }

  /** The two nested loops of `addEntityCountMetrics` over the worlds and their entities. */
  method CountEntities(worlds: seq<World>) returns (total: int, byWorld: map<string, map<string, int>>)
    ensures total == TotalEntities(worlds)
    ensures byWorld == ByWorld(worlds)
    ensures forall w :: w in byWorld ==> SumValues(byWorld[w]) <= total
  {
    total := 0;
    byWorld := map[];
    for i := 0 to |worlds|
      invariant total == TotalEntities(worlds[..i])
      invariant byWorld == ByWorld(worlds[..i])
    {
      var world := worlds[i];
      var worldEntities := 0;
      var worldEntityTypes: map<string, int> := map[];
      for j := 0 to |world.entities|
        invariant worldEntities == NonNullCount(world.entities[..j])
        invariant worldEntityTypes == TypeCounts(world.entities[..j])
      {
        var entity := world.entities[j];
        assert world.entities[..j + 1][..j] == world.entities[..j];
        if entity.Some? {
          worldEntities := worldEntities + 1;
          var entityType := entity.value;
          worldEntityTypes := worldEntityTypes[entityType := CountOr0(worldEntityTypes, entityType) + 1];
        }
      }
      assert world.entities[..|world.entities|] == world.entities;
      assert worlds[..i + 1][..i] == worlds[..i];
      total := total + worldEntities;
      byWorld := byWorld[world.id := worldEntityTypes];
    }
    assert worlds[..|worlds|] == worlds;
    EveryWorldWithinTotal(worlds);
  }

  lemma {:induction false} EveryWorldWithinTotal(ws: seq<World>)
    ensures forall w :: w in ByWorld(ws) ==> SumValues(ByWorld(ws)[w]) <= TotalEntities(ws)
  {
    if ws != [] {
      var prefix := ws[..|ws| - 1];
      var last := ws[|ws| - 1];
      EveryWorldWithinTotal(prefix);
      TypeCountsSumToWorldCount(last.entities);
    }
  }

  lemma TypesExtend(bw: map<string, map<string, int>>, w: string, row: map<string, int>)
    requires w !in bw
    ensures Types(bw[w := row]) == Types(bw) + row.Keys
  {
    forall t | t in Types(bw)
      ensures t in Types(bw[w := row])
    {
      var v :| v in bw && t in bw[v];
      assert v in bw[w := row] && t in bw[w := row][v];
    }
    forall t | t in row.Keys
      ensures t in Types(bw[w := row])
    {
      assert w in bw[w := row] && t in bw[w := row][w];
    }
  }

  /** The inner summary loop: one world's entries added to the running summary. */
  method AddWorldCounts(summary: map<string, int>, row: map<string, int>) returns (next: map<string, int>)
    ensures next.Keys == summary.Keys + row.Keys
    ensures forall t :: t in next ==> next[t] == CountOr0(summary, t) + CountOr0(row, t)
  {
    next := summary;
    var todo := row.Keys;
    while todo != {}
      invariant todo <= row.Keys
      invariant next.Keys == summary.Keys + (row.Keys - todo)
      invariant forall t :: t in next ==> next[t] == CountOr0(summary, t) + (if t in todo then 0 else CountOr0(row, t))
      decreases todo
    {
      var t :| t in todo;
      next := next[t := CountOr0(next, t) + row[t]];
      todo := todo - {t};
    }
  }

  /** The summary loop: every type's counts are added up over the per-world map's values. */
  method Summarize(byWorld: map<string, map<string, int>>) returns (summary: map<string, int>)
    ensures summary.Keys == Types(byWorld)
    ensures forall t :: t in summary ==> summary[t] == SumValues(Column(byWorld, t))
  {
    summary := map[];
    var remaining := byWorld.Keys;
    ghost var done: map<string, map<string, int>> := map[];
    while remaining != {}
      invariant remaining !! done.Keys && remaining + done.Keys == byWorld.Keys
      invariant forall w :: w in done ==> done[w] == byWorld[w]
      invariant summary.Keys == Types(done)
      invariant forall t :: t in summary ==> summary[t] == SumValues(Column(done, t))
      decreases remaining
    {
      var w :| w in remaining;
      var row := byWorld[w];
      ghost var before := summary;
      summary := AddWorldCounts(summary, row);
      forall t | t in summary
        ensures summary[t] == SumValues(Column(done[w := row], t))
      {
        ColumnExtend(done, w, row, t);
        if t !in before {
          ColumnZero(done, t);
        }
      }
      TypesExtend(done, w, row);
      done := done[w := row];
      remaining := remaining - {w};
    }
    assert done == byWorld;
  }

  /** A type that occurs in no world has an all-zero column. */
  lemma ColumnZero(bw: map<string, map<string, int>>, t: string)
    requires forall v :: v in bw ==> t !in bw[v]
    ensures SumValues(Column(bw, t)) == 0
    decreases |bw|
  {
    if bw != map[] {
      var w :| w in bw;
      var rest := bw - {w};
      ColumnZero(rest, t);
      assert bw == rest[w := bw[w]];
      ColumnExtend(rest, w, bw[w], t);
    }
  }

  // ---------------------------------------------------------------- network

  function HandlerCount(players: seq<Player>): (n: nat)
    ensures n <= |players|
    ensures AllHandlers(players) ==> n == |players|
  {
    if players == [] then 0
    else HandlerCount(players[..|players| - 1]) + (if players[|players| - 1].handler.Some? then 1 else 0)
  }

  /** `addNetworkMetrics` once a player list is available. */
  method NetworkStats(players: seq<Player>) returns (stats: JsonValue)
    ensures stats.JObject?
    ensures stats.fields.Keys ==
              {"connected_players", "packets_sent_total", "packets_received_total", "network_activity_level"}
    ensures stats.fields["connected_players"] == JInt(|players|)
    ensures stats.fields["packets_sent_total"] == JInt(PlaceholderPackets * HandlerCount(players))
    ensures stats.fields["packets_received_total"] == JInt(PlaceholderPackets * HandlerCount(players))
    ensures stats.fields["network_activity_level"] == JStr(if |players| > 0 then "Active" else "Idle")
  {
    var totalPacketsSent := 0;
    var totalPacketsReceived := 0;
    for i := 0 to |players|
      invariant totalPacketsSent == PlaceholderPackets * HandlerCount(players[..i])
      invariant totalPacketsReceived == totalPacketsSent
    {
      assert players[..i + 1][..i] == players[..i];
      if players[i].handler.Some? {
        totalPacketsSent := totalPacketsSent + PlaceholderPackets;
        totalPacketsReceived := totalPacketsReceived + PlaceholderPackets;
      }
    }
    assert players[..|players|] == players;
    stats := JObject(map[
      "connected_players" := JInt(|players|),
      "packets_sent_total" := JInt(totalPacketsSent),
      "packets_received_total" := JInt(totalPacketsReceived),
      "network_activity_level" := JStr(if |players| > 0 then "Active" else "Idle")]);
  }

  // ---------------------------------------------------------------- document

  const SamplerKeys: set<string> := {"tps", "tick_time_ms"}
  const PlayerKeys: set<string> := {"player_count", "network_latency_ms", "players"}
  const ServerInfoKeys: set<string> := {"server_uptime_ms", "minecraft_version", "world_time", "chunks_loaded"}
  const EntityKeys: set<string> :=
    {"entity_counts", "total_entities", "entity_counts_by_world", "entity_counts_summary"}
  const NetworkKeys: set<string> := {"network_stats"}

  /** No two sections of the document write the same key. */
  lemma SectionKeysDisjoint()
    ensures SamplerKeys !! PlayerKeys && SamplerKeys !! ServerInfoKeys
    ensures SamplerKeys !! EntityKeys && SamplerKeys !! NetworkKeys
    ensures PlayerKeys !! ServerInfoKeys && PlayerKeys !! EntityKeys && PlayerKeys !! NetworkKeys
    ensures ServerInfoKeys !! EntityKeys && ServerInfoKeys !! NetworkKeys
    ensures EntityKeys !! NetworkKeys
  {
  }

  function CountsJson(bw: map<string, map<string, int>>): JsonValue
  {
    JObject(map w | w in bw :: JObject(map t | t in bw[w] :: JInt(bw[w][t])))
  }

  function SummaryJson(summary: map<string, int>): JsonValue
  {
    JObject(map t | t in summary :: JInt(summary[t]))
  }

  /** The tick figures: a NaN average or rate is reported as "Data unavailable". */
  function SamplerSection(tickMs: Option<real>, tps: Option<real>): (m: map<string, JsonValue>)
    ensures m.Keys == SamplerKeys
    ensures m["tps"] == Unavailable <==> tps.None?
    ensures m["tick_time_ms"] == Unavailable <==> tickMs.None?
    ensures tps.Some? ==> m["tps"] == JReal(tps.value)
    ensures tickMs.Some? ==> m["tick_time_ms"] == JReal(tickMs.value)
  {
    map["tps" := Reported(tps), "tick_time_ms" := Reported(tickMs)]
  }

  /**
   * The player figures; None is the exception that a player with a null network
   * handler raises. A null server or player manager reports them as unavailable.
   */
  function PlayerSection(server: Option<Server>): (m: Option<map<string, JsonValue>>)
    ensures m.None? <==> server.Some? && server.value.players.Some? && !AllHandlers(server.value.players.value)
    ensures m.Some? ==> m.value.Keys == PlayerKeys
    ensures m.Some? && (server.None? || server.value.players.None?) ==>
              m.value["player_count"] == Unavailable && m.value["network_latency_ms"] == Unavailable
              && m.value["players"] == JArray([])
    ensures m.Some? && server.Some? && server.value.players.Some? ==>
              var ps := server.value.players.value;
              && m.value["player_count"] == JInt(|ps|)
              && (ps == [] <==> m.value["network_latency_ms"] == Unavailable)
              && (ps != [] ==> m.value["network_latency_ms"] == JInt(RoundHalfUp(LatencySum(ps) as real / |ps| as real)))
              && m.value["players"].JArray? && |m.value["players"].items| == |ps|
              && (forall i :: 0 <= i < |ps| ==> Some(m.value["players"].items[i]) == PlayerDetails(ps[i]))
  {
    if server.Some? && server.value.players.Some? then
      var ps := server.value.players.value;
      if !AllHandlers(ps) then None
      else
        var latency :=
          if ps == [] then Unavailable else JInt(RoundHalfUp(LatencySum(ps) as real / |ps| as real));
        Some(map[
          "player_count" := JInt(|ps|),
          "network_latency_ms" := latency,
          "players" := JArray(seq(|ps|, i requires 0 <= i < |ps| => PlayerDetails(ps[i]).value))])
    else
      Some(map["player_count" := Unavailable, "network_latency_ms" := Unavailable, "players" := JArray([])])
  }

  /** Uptime, version, world time and loaded chunks; all unavailable without a server. */
  function ServerInfoSection(server: Option<Server>): (m: map<string, JsonValue>)
    requires server.Some? ==> -0x8000_0000 <= server.value.ticks < 0x8000_0000
    ensures m.Keys == ServerInfoKeys
    ensures server.None? ==> forall k :: k in m ==> m[k] == Unavailable
    ensures server.Some? ==>
              var s := server.value;
              && m["server_uptime_ms"] == JInt(UptimeMs(s.ticks))
              && m["minecraft_version"] == JStr(s.version)
              && (m["world_time"] == Unavailable <==> s.overworld.None?)
              && (m["chunks_loaded"] == Unavailable <==> s.overworld.None?)
              && (s.overworld.Some? ==>
                    m["world_time"] == JInt(s.overworld.value.timeOfDay)
                    && m["chunks_loaded"] == JInt(s.overworld.value.chunksLoaded))
  {
    match server
    case None =>
      map["server_uptime_ms" := Unavailable, "minecraft_version" := Unavailable,
          "world_time" := Unavailable, "chunks_loaded" := Unavailable]
    case Some(s) =>
      map["server_uptime_ms" := JInt(UptimeMs(s.ticks)),
          "minecraft_version" := JStr(s.version),
          "world_time" := if s.overworld.None? then Unavailable else JInt(s.overworld.value.timeOfDay),
          "chunks_loaded" := if s.overworld.None? then Unavailable else JInt(s.overworld.value.chunksLoaded)]
  }

  /** `addEntityCountMetrics` without the entity locations. */
  method EntitySection(server: Option<Server>) returns (m: map<string, JsonValue>)
    ensures server.None? ==> m == map["entity_counts" := Unavailable]
    ensures m.Keys <= EntityKeys
    ensures server.Some? ==>
              var bw := ByWorld(server.value.worlds);
              && m.Keys == EntityKeys - {"entity_counts"}
              && m["total_entities"] == JInt(TotalEntities(server.value.worlds))
              && m["entity_counts_by_world"] == CountsJson(bw)
              && m["entity_counts_summary"].JObject?
              && m["entity_counts_summary"].fields.Keys == Types(bw)
              && (forall t :: t in m["entity_counts_summary"].fields ==>
                    m["entity_counts_summary"].fields[t] == JInt(SumValues(Column(bw, t))))
  {
    if server.None? {
      return map["entity_counts" := Unavailable];
    }
    var total, byWorld := CountEntities(server.value.worlds);
    var summary := Summarize(byWorld);
    m := map[
      "total_entities" := JInt(total),
      "entity_counts_by_world" := CountsJson(byWorld),
      "entity_counts_summary" := SummaryJson(summary)];
  }

  /** `addNetworkMetrics`: unavailable without a server or player manager. */
  method NetworkSection(server: Option<Server>) returns (m: map<string, JsonValue>)
    ensures m.Keys == NetworkKeys
    ensures server.None? || server.value.players.None? ==> m["network_stats"] == Unavailable
    ensures server.Some? && server.value.players.Some? ==>
              var ps := server.value.players.value;
              && m["network_stats"].JObject?
              && m["network_stats"].fields.Keys ==
                   {"connected_players", "packets_sent_total", "packets_received_total", "network_activity_level"}
              && m["network_stats"].fields["connected_players"] == JInt(|ps|)
              && m["network_stats"].fields["packets_sent_total"] == JInt(PlaceholderPackets * HandlerCount(ps))
              && m["network_stats"].fields["packets_received_total"] == JInt(PlaceholderPackets * HandlerCount(ps))
              && m["network_stats"].fields["network_activity_level"] == JStr(if |ps| > 0 then "Active" else "Idle")
  {
    if server.None? || server.value.players.None? {
      return map["network_stats" := Unavailable];
    }
    var stats := NetworkStats(server.value.players.value);
    m := map["network_stats" := stats];
  }

  /** Every entry of `part` is in `whole`. */
  predicate Within(part: map<string, JsonValue>, whole: map<string, JsonValue>)
  {
    forall k :: k in part ==> k in whole && whole[k] == part[k]
  }

  /** Sections with distinct keys each survive in their union. */
  lemma UnionKeepsSections(a: map<string, JsonValue>, b: map<string, JsonValue>, c: map<string, JsonValue>,
                           d: map<string, JsonValue>, e: map<string, JsonValue>)
    requires a.Keys !! b.Keys && a.Keys !! c.Keys && a.Keys !! d.Keys && a.Keys !! e.Keys
    requires b.Keys !! c.Keys && b.Keys !! d.Keys && b.Keys !! e.Keys
    requires c.Keys !! d.Keys && c.Keys !! e.Keys && d.Keys !! e.Keys
    ensures var u := a + b + c + d + e;
      Within(a, u) && Within(b, u) && Within(c, u) && Within(d, u) && Within(e, u)
  {
  }

  /**
   * `metricsJson` without the OS, disk, mod and coordinate figures: the sections
   * in the order the code writes them, their keys all distinct. None is the
   * exception a player with a null network handler raises.
   */
  method MetricsJson(server: Option<Server>, sampler: MetricsSampler) returns (root: Option<map<string, JsonValue>>)
    requires server.Some? ==> -0x8000_0000 <= server.value.ticks < 0x8000_0000
    ensures root.None? <==> server.Some? && server.value.players.Some? && !AllHandlers(server.value.players.value)
    ensures root.Some? ==>
              var r := root.value;
              && Within(SamplerSection(AverageMs(sampler.window), Tps(AverageMs(sampler.window))), r)
              && Within(PlayerSection(server).value, r)
              && Within(ServerInfoSection(server), r)
    ensures root.Some? && server.None? ==>
              var r := root.value;
              && "entity_counts" in r && r["entity_counts"] == Unavailable
              && "total_entities" !in r && "entity_counts_summary" !in r
              && "network_stats" in r && r["network_stats"] == Unavailable
    ensures root.Some? && server.Some? ==>
              var r := root.value;
              var bw := ByWorld(server.value.worlds);
              && "total_entities" in r && r["total_entities"] == JInt(TotalEntities(server.value.worlds))
              && "entity_counts_by_world" in r && r["entity_counts_by_world"] == CountsJson(bw)
              && "entity_counts_summary" in r && r["entity_counts_summary"].JObject?
              && r["entity_counts_summary"].fields.Keys == Types(bw)
              && (forall t :: t in r["entity_counts_summary"].fields ==>
                    r["entity_counts_summary"].fields[t] == JInt(SumValues(Column(bw, t))))
    ensures root.Some? && server.Some? && server.value.players.None? ==>
              "network_stats" in root.value && root.value["network_stats"] == Unavailable
    ensures root.Some? && server.Some? && server.value.players.Some? ==>
              var r := root.value;
              var ps := server.value.players.value;
              && "network_stats" in r && r["network_stats"].JObject?
              && r["network_stats"].fields.Keys ==
                   {"connected_players", "packets_sent_total", "packets_received_total", "network_activity_level"}
              && r["network_stats"].fields["connected_players"] == JInt(|ps|)
              && r["network_stats"].fields["packets_sent_total"] == JInt(PlaceholderPackets * |ps|)
              && r["network_stats"].fields["packets_received_total"] == JInt(PlaceholderPackets * |ps|)
              && r["network_stats"].fields["network_activity_level"] == JStr(if |ps| > 0 then "Active" else "Idle")
  {
    var tickMs := sampler.AvgTickMs();
    var tps := sampler.CurrentTps();
    var players := PlayerSection(server);
    if players.None? {
      return None;
    }
    var entities := EntitySection(server);
    var network := NetworkSection(server);
    var sampled := SamplerSection(tickMs, tps);
    var info := ServerInfoSection(server);
    SectionKeysDisjoint();
    UnionKeepsSections(sampled, players.value, info, entities, network);
    var r := sampled + players.value + info + entities + network;
    root := Some(r);
  }
}
