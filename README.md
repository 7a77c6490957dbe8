# Zeus coordination hub: ownership store, first login and plugins, in Dafny

Zeus is the hub of a game-server cluster. Frontend servers accept players and backend servers host them. The hub records which backend server owns each player's saved state. This project models four parts of it:

- **The player-ownership store** (`ZeusDAO`), module `OwnershipStore`. The `players` table is a `map<PlayerId, Row>` in class `PlayerStore`. A ghost set records the per-player advisory locks a procedure holds. `PrepareLogin` models `prep_player_login`: it claims a player for a server and returns the fresh marker `0x00`, the owned marker `0x01` or the stored blob. `CommitSave` models `insert_player_data`: it stores a save from the owner and frees the player, or ends in one of its two exceptions. `LoadAndLock` and `SavePlayerData` are the Java wrappers. `LoadAndLock` decodes the markers with `Decode`: fresh becomes an empty array and owned becomes null. `SavePlayerData` maps an exception to `false`. `GetLocation` reads the stored location. The methods are specified by pure functions of the table before the call (`PrepareReply`, `AfterPrepare`, `SaveOutcome`, `AfterSave`). The lemmas cover save-then-login, single ownership and the row invariant.
- **The procedures as their SQL text reads**, module `ProceduresAsWritten`. SQL uses three-valued logic, and this module follows it. Its lemmas name inputs on which the text differs from the intended meaning. See "## Findings".
- **The cancellable login event** (`PlayerInitialLoginEvent`), module `LoginEvent`. It is a class whose setters listeners call in place. Player and address are `const`. A listener's changes are written as a list of `Edit`s, and `ApplyAll` gives the resulting state.
- **The first-login decision** (`PlayerLoginRequest.handleRequest`), module `LoginRequest`. `Decide` is the branch taken after the broadcast. `HandleRequest` runs the whole handler: it looks up the location, calls the placement (a parameter), builds the event, broadcasts it and picks the reply. Exactly one reply is sent, and the session is always closed. A confirmation names the placement's target even when a listener called `setTarget`: the source confirms its local `target`, not the event's.
- **The plugin descriptor and lifecycle** (`ZeusPlugin`), module `Plugins`, with `JavaStrings` for `String.split(" ")` and `String.hashCode()`. The `ZeusLoad` annotation is an `Option<Descriptor>`. `isRunning`, `getDataFolder` and `getConfig` return the fields `running`, `dataFolder` and `configFile`. The plugin's own `onEnable` and `onDisable` are recorded in the field `hooks`, together with the state they see.

The procedures' text and their purpose disagree. The purpose is single ownership: a player with an owner cannot be claimed, and only the owner may save. The text tests `active_server` with `!=` against NULL, and under SQL's three-valued logic that test is never true. `OwnershipStore` models the purpose, and `ProceduresAsWritten` models the text.

The store's bytes are read as unsigned (0 to 255). The source compares a byte only with 0, so the Java `byte` sign does not matter. `String.hashCode()` wraps at 32 bits, and the model writes that out.

## Model

| member | source | states |
|---|---|---|
| OwnershipStore.FreshRow | src/main/java/com/github/civcraft/zeus/database/ZeusDAO.java:75-76 | the first-login row is owned by the requester and has null data and location |
| OwnershipStore.SavedRow | src/main/java/com/github/civcraft/zeus/database/ZeusDAO.java:55-56 | after a save the row holds the new data, the location's world (NULL when the world is null) and its coordinates, and has no owner |
| OwnershipStore.PrepareReply | src/main/java/com/github/civcraft/zeus/database/ZeusDAO.java:73-88 | fresh marker for an unknown player; owned marker when an owner is set; otherwise the stored data |
| OwnershipStore.AfterPrepare | src/main/java/com/github/civcraft/zeus/database/ZeusDAO.java:73-88 | login adds the player's row if missing and sets the owner to the requester unless one is set; the rest of that row and every other player's row are unchanged |
| OwnershipStore.SaveOutcome | src/main/java/com/github/civcraft/zeus/database/ZeusDAO.java:46-58 | the save ends with "no prepared entry" iff there is no row, "bad data source" iff the owner is not the requester, and succeeds iff the requester owns the row |
| OwnershipStore.AfterSave | src/main/java/com/github/civcraft/zeus/database/ZeusDAO.java:46-58 | a failed save leaves the table unchanged; a successful one rewrites only the player's row, to the saved row |
| OwnershipStore.Decode | src/main/java/com/github/civcraft/zeus/database/ZeusDAO.java:110-119 | identity on every blob whose length is not 1; empty array exactly for an empty blob or the fresh marker; null exactly for null or a one-byte non-zero blob |
| OwnershipStore.PlayerStore.constructor | src/main/java/com/github/civcraft/zeus/database/ZeusDAO.java:32-34 | a new store has an empty table and holds no lock |
| OwnershipStore.PlayerStore.PrepareLogin | src/main/java/com/github/civcraft/zeus/database/ZeusDAO.java:72-88 | returns PrepareReply and leaves the table as AfterPrepare; the lock it takes is released on every path (held set unchanged) and rows stay well formed |
| OwnershipStore.PlayerStore.CommitSave | src/main/java/com/github/civcraft/zeus/database/ZeusDAO.java:45-59 | returns SaveOutcome and leaves the table as AfterSave; the lock is released on both exception paths and on success |
| OwnershipStore.PlayerStore.LoadAndLock | src/main/java/com/github/civcraft/zeus/database/ZeusDAO.java:101-125 | unknown player gives the empty array; an owned player gives null and no change; a free player gives the decoded stored data and is claimed |
| OwnershipStore.PlayerStore.SavePlayerData | src/main/java/com/github/civcraft/zeus/database/ZeusDAO.java:152-171 | true iff the requester owns the row; then the row is the saved row; otherwise the table is unchanged |
| OwnershipStore.PlayerStore.GetLocation | src/main/java/com/github/civcraft/zeus/database/ZeusDAO.java:127-150 | absent iff there is no row or its world is null; otherwise the stored world and coordinates |
| OwnershipStore.SaveThenPrepare | src/main/java/com/github/civcraft/zeus/database/ZeusDAO.java:46-88 | after the owner's save a login from any server gets exactly the saved data (decoded unchanged unless it is one byte long), becomes owner, and a further login changes nothing |
| OwnershipStore.SingleOwner | src/main/java/com/github/civcraft/zeus/database/ZeusDAO.java:46-88 | once a server claims a free player, a second server's login is refused, changes nothing, and its save is refused |
| OwnershipStore.ProceduresKeepRowsWellFormed | src/main/java/com/github/civcraft/zeus/database/ZeusDAO.java:46-88 | both procedures keep every row well formed: free rows have data, a stored world has coordinates |
| OwnershipStore.LoginHandoff | src/main/java/com/github/civcraft/zeus/database/ZeusDAO.java:101-171 | scenario: first login gets fresh; second server refused; non-owner save refused; owner save frees the player and stores its location, which reads back unless its world is null; next server gets the saved bytes |
| ProceduresAsWritten.SqlDistinct | src/main/java/com/github/civcraft/zeus/database/ZeusDAO.java:51 | SQL `!=` is unknown iff a side is NULL and true iff both are set and differ |
| ProceduresAsWritten.PrepareReplyAsWritten | src/main/java/com/github/civcraft/zeus/database/ZeusDAO.java:79-88 | as written, a known player's login always returns its stored data, never the owned marker |
| ProceduresAsWritten.AfterPrepareAsWritten | src/main/java/com/github/civcraft/zeus/database/ZeusDAO.java:79-88 | as written, every login makes the requester the owner |
| ProceduresAsWritten.SaveOutcomeAsWritten | src/main/java/com/github/civcraft/zeus/database/ZeusDAO.java:46-54 | as written, "not found" iff the table is empty; "bad data source" iff the first scanned row has a different non-null owner |
| ProceduresAsWritten.AfterSaveAsWritten | src/main/java/com/github/civcraft/zeus/database/ZeusDAO.java:46-58 | as written, the update rewrites the player's row only when it exists and no exception was raised |
| ProceduresAsWritten.OwnedPlayerClaimedAgain | src/main/java/com/github/civcraft/zeus/database/ZeusDAO.java:80-86 | a player owned by "A" is handed to "B" with its state, where the intended store refuses |
| ProceduresAsWritten.FreeRowOverwritten | src/main/java/com/github/civcraft/zeus/database/ZeusDAO.java:51-56 | a save from a server that never claimed a free player overwrites its state |
| ProceduresAsWritten.UnpreparedSaveSucceeds | src/main/java/com/github/civcraft/zeus/database/ZeusDAO.java:46-56 | a save for a player without a row raises nothing and stores nothing |
| ProceduresAsWritten.OwnerSaveRefused | src/main/java/com/github/civcraft/zeus/database/ZeusDAO.java:46-53 | the owner's own save is refused when the scan yields another player's row |
| LoginEvent.Denied | src/main/java/com/github/civcraft/zeus/plugin/event/events/PlayerInitialLoginEvent.java:82-85 | denying sets the message, cancels, and changes nothing else |
| LoginEvent.DeniedIdempotent | src/main/java/com/github/civcraft/zeus/plugin/event/events/PlayerInitialLoginEvent.java:82-85 | denying twice with one message equals denying once |
| LoginEvent.Apply | src/main/java/com/github/civcraft/zeus/plugin/event/events/PlayerInitialLoginEvent.java:50-85 | no setter changes the player or the address |
| LoginEvent.ApplyAll | src/main/java/com/github/civcraft/zeus/rabbit/incoming/apollo/PlayerLoginRequest.java:29 | after all listeners the player and address are the original ones; a denial not followed by a cancellation change leaves the event cancelled |
| LoginEvent.PlayerInitialLoginEvent.constructor | src/main/java/com/github/civcraft/zeus/plugin/event/events/PlayerInitialLoginEvent.java:22-27 | stores player, address, target and location as given; no deny message, not cancelled |
| LoginEvent.PlayerInitialLoginEvent.SetTarget | src/main/java/com/github/civcraft/zeus/plugin/event/events/PlayerInitialLoginEvent.java:50-53 | sets target and location together; deny message and cancellation unchanged |
| LoginEvent.PlayerInitialLoginEvent.SetDenyMessage | src/main/java/com/github/civcraft/zeus/plugin/event/events/PlayerInitialLoginEvent.java:82-85 | sets the deny message and cancels; target and location unchanged |
| LoginEvent.PlayerInitialLoginEvent.SetCancelled | src/main/java/com/github/civcraft/zeus/plugin/event/events/PlayerInitialLoginEvent.java:84 | sets the cancellation flag only |
| LoginRequest.Decide | src/main/java/com/github/civcraft/zeus/rabbit/incoming/apollo/PlayerLoginRequest.java:30-48 | never keeps the session open; exactly one reply, to the session's server with its transaction ID; cancelled gives a rejection with the deny message or "Login denied", checked before the target; no target gives "No target found"; otherwise a confirmation with the target's ID |
| LoginRequest.CreateSession | src/main/java/com/github/civcraft/zeus/rabbit/incoming/apollo/PlayerLoginRequest.java:57-59 | the command always asks for a session |
| LoginRequest.Broadcast | src/main/java/com/github/civcraft/zeus/rabbit/incoming/apollo/PlayerLoginRequest.java:29 | the event ends in the state the listeners' edits give, applied in order |
| LoginRequest.HandleRequest | src/main/java/com/github/civcraft/zeus/rabbit/incoming/apollo/PlayerLoginRequest.java:24-49 | the reply is Decide on the post-broadcast cancellation and deny message and the placement's target for the stored location; a confirmation names the placement's target whatever the listeners set |
| LoginRequest.DenyingListenerRejects | src/main/java/com/github/civcraft/zeus/rabbit/incoming/apollo/PlayerLoginRequest.java:29-39 | a listener that denies with a message, followed only by retargeting, makes the reply a rejection with that message |
| LoginRequest.DenyMessageKept | src/main/java/com/github/civcraft/zeus/plugin/event/events/PlayerInitialLoginEvent.java:50-85 | retargeting after a denial keeps its message and the cancellation |
| JavaStrings.Pieces | src/main/java/com/github/civcraft/zeus/plugin/ZeusPlugin.java:88 | the space-separated pieces contain no space and join back to the input |
| JavaStrings.DropTrailingEmpty | src/main/java/com/github/civcraft/zeus/plugin/ZeusPlugin.java:88 | a prefix of the input whose last piece is non-empty; only empty pieces are dropped |
| JavaStrings.StripTrailingSpaces | src/main/java/com/github/civcraft/zeus/plugin/ZeusPlugin.java:88 | a prefix of the input ending in a non-space; only spaces are dropped |
| JavaStrings.Split | src/main/java/com/github/civcraft/zeus/plugin/ZeusPlugin.java:88 | no piece contains a space; joining with ' ' gives the input without trailing spaces; a split on a string with a space has no trailing empty piece, and a string without one splits to itself |
| JavaStrings.JoinSnoc | src/main/java/com/github/civcraft/zeus/plugin/ZeusPlugin.java:88 | joining with one more piece appends a space and that piece |
| JavaStrings.JoinDropTrailing | src/main/java/com/github/civcraft/zeus/plugin/ZeusPlugin.java:88 | dropping trailing empty pieces strips exactly the trailing spaces of the joined string |
| JavaStrings.UnsignedHash | src/main/java/com/github/civcraft/zeus/plugin/ZeusPlugin.java:119 | the 31-polynomial hash stays within 32 bits |
| JavaStrings.HashCode | src/main/java/com/github/civcraft/zeus/plugin/ZeusPlugin.java:119 | a signed 32-bit int congruent to the unsigned hash |
| Plugins.ZeusPlugin.constructor | src/main/java/com/github/civcraft/zeus/plugin/ZeusPlugin.java:15-17 | a new plugin is not running, has no data folder or configuration, and has run no hook |
| Plugins.ZeusPlugin.Name | src/main/java/com/github/civcraft/zeus/plugin/ZeusPlugin.java:94-100 | null iff there is no annotation; otherwise the annotation's name |
| Plugins.ZeusPlugin.Version | src/main/java/com/github/civcraft/zeus/plugin/ZeusPlugin.java:110-116 | null iff there is no annotation; otherwise the annotation's version |
| Plugins.ZeusPlugin.Description | src/main/java/com/github/civcraft/zeus/plugin/ZeusPlugin.java:71-77 | null iff there is no annotation; otherwise the annotation's description |
| Plugins.ZeusPlugin.Dependencies | src/main/java/com/github/civcraft/zeus/plugin/ZeusPlugin.java:79-89 | empty without an annotation or for a null or empty string; otherwise pieces without spaces, with no trailing empty piece, joining to the string stripped of trailing spaces |
| Plugins.ZeusPlugin.Enable | src/main/java/com/github/civcraft/zeus/plugin/ZeusPlugin.java:20-26 | running is set; with a name, the data folder is plugins folder plus name, the configuration file is inside it, and onEnable runs after all three are set and sees them; without a name it throws after setting running |
| Plugins.ZeusPlugin.Disable | src/main/java/com/github/civcraft/zeus/plugin/ZeusPlugin.java:28-31 | onDisable runs and sees the old running flag; afterwards not running |
| Plugins.ZeusPlugin.HashCode | src/main/java/com/github/civcraft/zeus/plugin/ZeusPlugin.java:118-120 | throws iff there is no name; otherwise the name's String hash |
| Plugins.ZeusPlugin.Equals | src/main/java/com/github/civcraft/zeus/plugin/ZeusPlugin.java:122-127 | false for a non-plugin; throws iff the other plugin has no name; true iff the other has a name equal to this one's |
| Plugins.EqualityByName | src/main/java/com/github/civcraft/zeus/plugin/ZeusPlugin.java:118-127 | among named plugins, equality is name equality, symmetric and reflexive, and equal plugins hash alike |
| Plugins.EnableThenDisable | src/main/java/com/github/civcraft/zeus/plugin/ZeusPlugin.java:20-38 | enable then disable leaves the plugin stopped, with onEnable then onDisable recorded, both seeing running, and onEnable seeing the data folder and configuration file |

## Findings

| source | as written | input that shows it | evidently intended | confidence | as-written member | corrected member |
|---|---|---|---|---|---|---|
| src/main/java/com/github/civcraft/zeus/database/ZeusDAO.java:80 | `existing_data.active_server != null` compares with NULL, which is never true | row for player 1 owned by "A"; `prep_player_login(1, "B")` | return the owned marker `0x01` and leave the row alone | high; not executed | ProceduresAsWritten.OwnedPlayerClaimedAgain | OwnershipStore.SingleOwner |
| src/main/java/com/github/civcraft/zeus/database/ZeusDAO.java:51 | `existing_data.active_server != in_server` is unknown when the owner is NULL, so the update runs | free row for player 1; `insert_player_data` for player 1 from "B" | raise "Bad data source" | high; not executed | ProceduresAsWritten.FreeRowOverwritten | OwnershipStore.SaveOutcome |
| src/main/java/com/github/civcraft/zeus/database/ZeusDAO.java:46 | `select * from players into existing_data` has no WHERE clause, so "not found" only means an empty table | table holding only player 1; `insert_player_data` for player 2 from "A" | raise "No prepared entry" | high; not executed | ProceduresAsWritten.UnpreparedSaveSucceeds | OwnershipStore.SaveOutcome |
| src/main/java/com/github/civcraft/zeus/database/ZeusDAO.java:46 | the same `select` checks the owner of whichever row the scan yields first | player 1 owned by "A", player 2 owned by "B", scan yields player 1; save of player 2 from "B" | accept the owner's save | medium (depends on scan order); not executed | ProceduresAsWritten.OwnerSaveRefused | OwnershipStore.SaveOutcome |

## Left out

- Connections, JDBC and `SQLException`: a failing database makes `loadAndLockPlayerNBT` return null and `savePlayerNBT` return false. That is I/O and is not modelled.
- The `CREATE TABLE` and `CREATE FUNCTION` statements, `createTables`' success flag and all logging. These are I/O.
- The advisory lock key is the UUID's most significant 64 bits. The model keys its ghost lock set by the whole player id. Blocking on a lock held by another process is real concurrency and is out of reach. The model only shows that each call releases every lock it took.
- The blob stored for a free player is returned as is. A saved blob exactly one byte long therefore decodes as a marker. `SaveThenPrepare` states its round trip only for other lengths.
- Coordinates are Java doubles. The model carries them as opaque `real`s and does no arithmetic on them. A NULL coordinate column reads as 0.0, which is what JDBC's `getDouble` returns.
- Null `data` or a null `location` passed to `savePlayerNBT` is not modelled. The Java code would throw `NullPointerException` before the procedure runs. A null world is modelled: it is stored as NULL next to the coordinates, and `getLocation` then returns absent.
- `getFreshSession` parses the UUID with `UUID.fromString` and the address with `InetAddress.getByName`. These are library calls that can resolve names over the network. The session is taken as an input value.
- The `ZeusMain` singleton, the placement manager and the event manager are not part of this model. The placement is a function parameter. The listeners are the list of edits they make, applied in registration order. A listener's own faults and its reads of the event are not modelled.
- `InteractiveRabbitCommand` (send lambda, broadcast tracker), `LocationRequestSession` (an empty timeout stub) and `ParsingUtils` (a JSON library call) are not part of this model. A sent reply is recorded as a value in `Handled.sent`.
- Loading `config.yml` and reading the annotation by reflection. The model records the configuration file's path, and the annotation is a `Descriptor` value. The logger that `enable` stores is not modelled.
- The bodies of a plugin's `onEnable` and `onDisable`, including any exception they throw. Only the fact that each was called, and the state it saw, is recorded.
- JavaStrings.HashCode: iterates over Dafny characters, which equals Java's UTF-16 iteration only for characters in the Basic Multilingual Plane.
