/**
 * The player-ownership store: the `players` table and the two PL/pgSQL
 * procedures that claim (`prep_player_login`) and release (`insert_player_data`)
 * a player's state, with the Java decoding around them.
 *
 * This module gives the procedures their intended per-player meaning.
 * The procedure text differs from that meaning in three places, which
 * `ProceduresAsWritten` models literally:
 * - the save procedure's `select * from players into existing_data` has no
 *   `where player = in_player`, so it reads an arbitrary row of the table;
 * - `existing_data.active_server != null` compares with NULL and so is never
 *   true: an already owned player is claimed again;
 * - `existing_data.active_server != in_server` is not true when the owner is
 *   NULL: a server that never prepared the player may overwrite its state.
 */
module OwnershipStore {
  import opened Wrappers
  import opened ZeusTypes

  /** One row of the `players` table; every column but the key is nullable. */
  datatype Row = Row(data: Option<Blob>, activeServer: Option<ServerId>,
                     world: Option<string>, x: Option<Coord>, y: Option<Coord>, z: Option<Coord>)

  /** The one-byte value `prep_player_login` returns for a never-seen player. */
  const FRESH_MARKER: Blob := [0]
  /** The one-byte value `prep_player_login` returns for a player some server owns. */
  const OWNED_MARKER: Blob := [1]

  /** How `insert_player_data` ends: normally, or by one of its two exceptions. */
  datatype SaveStatus = Saved | NoPreparedEntry | BadDataSource

  /** A row the store can hold: free rows carry state, and a stored world comes with its coordinates. */
  ghost predicate WellFormed(r: Row) {
    (r.activeServer.None? ==> r.data.Some?) &&
    (r.world.Some? ==> r.x.Some? && r.y.Some? && r.z.Some?)
  }

  /** The row inserted on a first login: owned by the requester, all other columns null. */
  function FreshRow(server: ServerId): (r: Row)
    ensures r.activeServer == Some(server) && r.data.None? && r.world.None?
    ensures WellFormed(r)
  {
    Row(None, Some(server), None, None, None, None)
  }

  /** The row a successful save leaves: the new state and location, and no owner. */
  function SavedRow(data: Blob, loc: Location): (r: Row)
    ensures r.activeServer.None? && r.data == Some(data)
    ensures r.world == loc.world && r.x == Some(loc.x) && r.y == Some(loc.y) && r.z == Some(loc.z)
    ensures WellFormed(r)
  {
    Row(Some(data), None, loc.world, Some(loc.x), Some(loc.y), Some(loc.z))
  }

  /** The value `prep_player_login` returns, as a function of the table before the call. */
  function PrepareReply(rows: map<PlayerId, Row>, player: PlayerId): (r: Option<Blob>)
    ensures player !in rows ==> r == Some(FRESH_MARKER)
    ensures player in rows && rows[player].activeServer.Some? ==> r == Some(OWNED_MARKER)
    ensures player in rows && rows[player].activeServer.None? ==> r == rows[player].data
  {
    if player !in rows then Some(FRESH_MARKER)
    else if rows[player].activeServer.Some? then Some(OWNED_MARKER)
    else rows[player].data
  }

  /** The table after `prep_player_login(player, server)`. */
  function AfterPrepare(rows: map<PlayerId, Row>, player: PlayerId, server: ServerId): (r: map<PlayerId, Row>)
    ensures r.Keys == rows.Keys + {player}
    ensures forall q :: q in rows && q != player ==> r[q] == rows[q]
    ensures r[player].activeServer == if player in rows && rows[player].activeServer.Some?
                                      then rows[player].activeServer else Some(server)
    ensures player in rows ==> r[player] == rows[player].(activeServer := r[player].activeServer)
    ensures player !in rows ==> r[player] == FreshRow(server)
  {
    if player !in rows then rows[player := FreshRow(server)]
    else if rows[player].activeServer.Some? then rows
    else rows[player := rows[player].(activeServer := Some(server))]
  }

  /** How `insert_player_data(player, server, ...)` ends on a given table. */
  function SaveOutcome(rows: map<PlayerId, Row>, player: PlayerId, server: ServerId): (r: SaveStatus)
    ensures r == NoPreparedEntry <==> player !in rows
    ensures r == BadDataSource <==> player in rows && rows[player].activeServer != Some(server)
    ensures r == Saved <==> player in rows && rows[player].activeServer == Some(server)
  {
    if player !in rows then NoPreparedEntry
    else if rows[player].activeServer != Some(server) then BadDataSource
    else Saved
  }

  /** The table after `insert_player_data`: rewritten on success, untouched on an exception. */
  function AfterSave(rows: map<PlayerId, Row>, player: PlayerId, server: ServerId,
                     data: Blob, loc: Location): (r: map<PlayerId, Row>)
    ensures SaveOutcome(rows, player, server) != Saved ==> r == rows
    ensures SaveOutcome(rows, player, server) == Saved ==>
              r.Keys == rows.Keys && r[player] == SavedRow(data, loc) &&
              forall q :: q in rows && q != player ==> r[q] == rows[q]
  {
    if SaveOutcome(rows, player, server) == Saved then rows[player := SavedRow(data, loc)] else rows
  }

  /**
   * The decoding in `loadAndLockPlayerNBT`: a one-byte 0 means "fresh" (an
   * empty array), any other one-byte value means "error" (null); every other
   * value passes through.
   */
  function Decode(raw: Option<Blob>): (r: Option<Blob>)
    ensures raw.Some? && |raw.value| != 1 ==> r == raw
    ensures r == Some([]) <==> raw == Some([]) || raw == Some(FRESH_MARKER)
    ensures r.None? <==> raw.None? || (|raw.value| == 1 && raw.value[0] != 0)
  {
    match raw
    case None => None
    case Some(b) =>
      if |b| == 1 then
        assert b == [b[0]];
        if b[0] == 0 then Some([]) else None
      else raw
  }

  /** JDBC's `getDouble` on a column: a NULL reads as 0.0. */
  function ColumnDouble(c: Option<Coord>): Coord {
    c.GetOr(0.0)
  }

  /** The players table, with the advisory locks the procedures hold. */
  class PlayerStore {
    var rows: map<PlayerId, Row>
    /** The players whose advisory lock a running procedure holds. */
    ghost var held: set<PlayerId>

    /** Between calls no lock is held and every row is well formed. */
    ghost predicate Valid()
      reads this
    {
      held == {} && forall p :: p in rows ==> WellFormed(rows[p])
    }

    constructor ()
      ensures Valid() && rows == map[]
    {
      rows := map[];
      held := {};
    }

    /** `prep_player_login`: claims `player` for `server` under the player's lock. */
    method PrepareLogin(player: PlayerId, server: ServerId) returns (raw: Option<Blob>)
      requires Valid()
      modifies this
      ensures Valid() && held == old(held)
      ensures raw == PrepareReply(old(rows), player)
      ensures rows == AfterPrepare(old(rows), player, server)
    {
      held := held + {player};
      if player !in rows {
        assert player in held;
        rows := rows[player := FreshRow(server)];
        held := held - {player};
        return Some(FRESH_MARKER);
      }
      var existing := rows[player];
      if existing.activeServer.Some? {
        held := held - {player};
        return Some(OWNED_MARKER);
      }
      assert player in held;
      rows := rows[player := existing.(activeServer := Some(server))];
      held := held - {player};
      raw := existing.data;
    }

    /**
     * `insert_player_data`: stores a save from the current owner and frees
     * the player; raises when no row exists or another server owns it.
     */
    method CommitSave(player: PlayerId, server: ServerId, data: Blob, loc: Location) returns (status: SaveStatus)
      requires Valid()
      modifies this
      ensures Valid() && held == old(held)
      ensures status == SaveOutcome(old(rows), player, server)
      ensures rows == AfterSave(old(rows), player, server, data, loc)
    {
      held := held + {player};
      if player !in rows {
        held := held - {player};
        return NoPreparedEntry;
      }
      var existing := rows[player];
      if existing.activeServer != Some(server) {
        held := held - {player};
        return BadDataSource;
      }
      assert player in held;
      rows := rows[player := SavedRow(data, loc)];
      held := held - {player};
      status := Saved;
    }

    /** `loadAndLockPlayerNBT`: claims the player and decodes the procedure's markers. */
    method LoadAndLock(player: PlayerId, server: ServerId) returns (state: Option<Blob>)
      requires Valid()
      modifies this
      ensures Valid() && held == old(held)
      ensures rows == AfterPrepare(old(rows), player, server)
      ensures player !in old(rows) ==> state == Some([])
      ensures player in old(rows) && old(rows)[player].activeServer.Some? ==> state.None?
      ensures player in old(rows) && old(rows)[player].activeServer.None? ==>
                state == Decode(old(rows)[player].data)
    {
      var raw := PrepareLogin(player, server);
      state := Decode(raw);
    }

    /** `savePlayerNBT`: true exactly when the save procedure ran without raising. */
    method SavePlayerData(player: PlayerId, data: Blob, loc: Location, server: ServerId) returns (ok: bool)
      requires Valid()
      modifies this
      ensures Valid() && held == old(held)
      ensures ok <==> old(player in rows && rows[player].activeServer == Some(server))
      ensures ok ==> rows == old(rows)[player := SavedRow(data, loc)]
      ensures !ok ==> rows == old(rows)
    {
      var status := CommitSave(player, server, data, loc);
      ok := status == Saved;
    }

    /** `getLocation`: the stored location, absent for an unknown player or a null world. */
    function GetLocation(player: PlayerId): (r: Option<Location>)
      reads this
      ensures r.Some? <==> player in rows && rows[player].world.Some?
      ensures r.Some? ==> r.value.world == rows[player].world
      ensures r.Some? && Valid() ==>
                Some(r.value.x) == rows[player].x && Some(r.value.y) == rows[player].y &&
                Some(r.value.z) == rows[player].z
    {
      if player !in rows then None
      else
        var row := rows[player];
        match row.world
        case None => None
        case Some(w) => Some(Location(Some(w), ColumnDouble(row.x), ColumnDouble(row.y), ColumnDouble(row.z)))
    }
  }

  /**
   * Save then login: after a successful save by the owner, a login from any
   * server gets the saved state back and becomes the new owner, unless the
   * state is one byte long and so collides with a marker.
   */
  lemma SaveThenPrepare(rows: map<PlayerId, Row>, player: PlayerId, owner: ServerId,
                        data: Blob, loc: Location, next: ServerId)
    requires SaveOutcome(rows, player, owner) == Saved
    ensures var saved := AfterSave(rows, player, owner, data, loc);
            PrepareReply(saved, player) == Some(data) &&
            (|data| != 1 ==> Decode(PrepareReply(saved, player)) == Some(data)) &&
            AfterPrepare(saved, player, next)[player].activeServer == Some(next) &&
            AfterPrepare(AfterPrepare(saved, player, next), player, owner) == AfterPrepare(saved, player, next)
  {
  }

  /** A claimed player cannot be claimed again, and a second server cannot save over the owner. */
  lemma SingleOwner(rows: map<PlayerId, Row>, player: PlayerId, first: ServerId, second: ServerId)
    requires first != second
    ensures var claimed := AfterPrepare(rows, player, first);
            (player !in rows || rows[player].activeServer.None? ==>
               claimed[player].activeServer == Some(first) &&
               Decode(PrepareReply(claimed, player)).None? &&
               AfterPrepare(claimed, player, second) == claimed &&
               SaveOutcome(claimed, player, second) == BadDataSource)
  {
  }

  /** Both procedures keep every row well formed. */
  lemma ProceduresKeepRowsWellFormed(rows: map<PlayerId, Row>, player: PlayerId, server: ServerId,
                                     data: Blob, loc: Location)
    requires forall p :: p in rows ==> WellFormed(rows[p])
    ensures var r := AfterPrepare(rows, player, server); forall p :: p in r ==> WellFormed(r[p])
    ensures var r := AfterSave(rows, player, server, data, loc); forall p :: p in r ==> WellFormed(r[p])
  {
  }

  /** The scenarios of a login handoff, run against one store. */
  method LoginHandoff(p: PlayerId, bytes10: Blob, loc: Location)
    requires |bytes10| == 10
  {
    var store := new PlayerStore();
    var s := store.LoadAndLock(p, "A");
    assert s == Some([]) && store.rows[p].activeServer == Some("A") && store.rows[p].data.None?;
    s := store.LoadAndLock(p, "B");
    assert s.None? && store.rows[p].activeServer == Some("A");
    var ok := store.SavePlayerData(p, bytes10, loc, "B");
    assert !ok && store.rows[p].data.None?;
    ok := store.SavePlayerData(p, bytes10, loc, "A");
    assert ok && store.rows[p].activeServer.None?;
    assert loc.world.Some? ==> store.GetLocation(p) == Some(loc);
    assert loc.world.None? ==> store.GetLocation(p).None?;
    s := store.LoadAndLock(p, "C");
    assert s == Some(bytes10) && store.rows[p].activeServer == Some("C");
  }
}
