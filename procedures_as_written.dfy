/**
 * The two PL/pgSQL procedures exactly as their text reads, under SQL's
 * three-valued logic: a comparison with NULL is neither true nor false, and
 * an IF takes its THEN branch only on true. Each lemma below names an input
 * on which this reading differs from the intended one in `OwnershipStore`.
 */
module ProceduresAsWritten {
  import opened Wrappers
  import opened ZeusTypes
  import opened OwnershipStore

  /** SQL's truth values. */
  datatype Truth = True | False | Unknown

  /** `a != b` on two nullable varchar values. */
  function SqlDistinct(a: Option<string>, b: Option<string>): (r: Truth)
    ensures r == Unknown <==> a.None? || b.None?
    ensures r == True <==> a.Some? && b.Some? && a.value != b.value
  {
    if a.None? || b.None? then Unknown
    else if a.value != b.value then True
    else False
  }

  /** The value `prep_player_login` returns as written: the owner test `active_server != null` never holds. */
  function PrepareReplyAsWritten(rows: map<PlayerId, Row>, player: PlayerId): (r: Option<Blob>)
    ensures player !in rows ==> r == Some(FRESH_MARKER)
    ensures player in rows ==> r == rows[player].data
  {
    if player !in rows then Some(FRESH_MARKER)
    else if SqlDistinct(rows[player].activeServer, None) == True then Some(OWNED_MARKER)
    else rows[player].data
  }

  /** The table after `prep_player_login` as written: every login claims the player. */
  function AfterPrepareAsWritten(rows: map<PlayerId, Row>, player: PlayerId, server: ServerId): (r: map<PlayerId, Row>)
    ensures r.Keys == rows.Keys + {player}
    ensures r[player].activeServer == Some(server)
    ensures forall q :: q in rows && q != player ==> r[q] == rows[q]
  {
    if player !in rows then rows[player := FreshRow(server)]
    else if SqlDistinct(rows[player].activeServer, None) == True then rows
    else rows[player := rows[player].(activeServer := Some(server))]
  }

  /**
   * How `insert_player_data` ends as written. Its `select` has no WHERE
   * clause, so `existing_data` is whichever row the scan yields first,
   * `scanned`, and "not found" means only that the table is empty.
   */
  function SaveOutcomeAsWritten(rows: map<PlayerId, Row>, player: PlayerId, server: ServerId,
                                scanned: PlayerId): (r: SaveStatus)
    requires rows != map[] ==> scanned in rows
    ensures r == NoPreparedEntry <==> rows == map[]
    ensures r == BadDataSource <==>
              rows != map[] && rows[scanned].activeServer.Some? && rows[scanned].activeServer != Some(server)
  {
    if rows == map[] then NoPreparedEntry
    else if SqlDistinct(rows[scanned].activeServer, Some(server)) == True then BadDataSource
    else Saved
  }

  /** The table after `insert_player_data` as written; the `update` does select by player. */
  function AfterSaveAsWritten(rows: map<PlayerId, Row>, player: PlayerId, server: ServerId,
                              data: Blob, loc: Location, scanned: PlayerId): (r: map<PlayerId, Row>)
    requires rows != map[] ==> scanned in rows
    ensures r.Keys == rows.Keys
    ensures player in rows && SaveOutcomeAsWritten(rows, player, server, scanned) == Saved ==>
              r == rows[player := SavedRow(data, loc)]
    ensures player !in rows || SaveOutcomeAsWritten(rows, player, server, scanned) != Saved ==> r == rows
  {
    if player in rows && SaveOutcomeAsWritten(rows, player, server, scanned) == Saved
    then rows[player := SavedRow(data, loc)]
    else rows
  }

  const STATE: Blob := [7, 7]
  const OWNED_BY_A := Row(Some(STATE), Some("A"), None, None, None, None)
  const FREE := Row(Some(STATE), None, None, None, None, None)

  /** A player owned by "A" is handed to "B" as well, with its state, instead of being refused. */
  lemma OwnedPlayerClaimedAgain()
    ensures var rows := map[1 := OWNED_BY_A];
            AfterPrepareAsWritten(rows, 1, "B")[1].activeServer == Some("B") &&
            Decode(PrepareReplyAsWritten(rows, 1)) == Some(STATE) &&
            AfterPrepare(rows, 1, "B") == rows &&
            Decode(PrepareReply(rows, 1)).None?
  {
  }

  /** A free player's state is overwritten by a save from "B", which never claimed it. */
  lemma FreeRowOverwritten(loc: Location)
    ensures var rows := map[1 := FREE];
            SaveOutcomeAsWritten(rows, 1, "B", 1) == Saved &&
            AfterSaveAsWritten(rows, 1, "B", [9], loc, 1)[1].data == Some([9]) &&
            SaveOutcome(rows, 1, "B") == BadDataSource
  {
    var rows := map[1 := FREE];
    assert 1 in rows;
  }

  /** A save for a player with no row reports success while storing nothing. */
  lemma UnpreparedSaveSucceeds(loc: Location)
    ensures var rows := map[1 := OWNED_BY_A];
            SaveOutcomeAsWritten(rows, 2, "A", 1) == Saved &&
            AfterSaveAsWritten(rows, 2, "A", STATE, loc, 1) == rows &&
            SaveOutcome(rows, 2, "A") == NoPreparedEntry
  {
    var rows := map[1 := OWNED_BY_A];
    assert 1 in rows;
  }

  /** The owner's own save is refused when the scan happens to yield another player's row. */
  lemma OwnerSaveRefused(loc: Location)
    ensures var rows := map[1 := OWNED_BY_A, 2 := OWNED_BY_A.(activeServer := Some("B"))];
            SaveOutcomeAsWritten(rows, 2, "B", 1) == BadDataSource &&
            SaveOutcome(rows, 2, "B") == Saved
  {
  }
}
