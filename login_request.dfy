/**
 * `PlayerLoginRequest`: the hub's answer to a frontend server asking where a
 * connecting player should go.
 */
module LoginRequest {
  import opened Wrappers
  import opened ZeusTypes
  import opened OwnershipStore
  import opened LoginEvent

  /** The command identifier the handler is registered under. */
  const ID := "initial_login_request"
  const DEFAULT_DENY_MESSAGE := "Login denied"
  const NO_TARGET_MESSAGE := "No target found"

  /** The conversation state: originating server, transaction, player and address. */
  datatype LoginSession = LoginSession(serverId: ServerId, transactionId: string,
                                       player: PlayerId, ip: Option<IpAddress>)

  datatype Reply =
    | RejectLogin(transactionId: string, message: string)       // RejectPlayerInitialLogin
    | ConfirmLogin(transactionId: string, targetId: ServerId)    // ConfirmInitialPlayerLogin

  /** A reply and the server it is sent to. */
  datatype Outgoing = Outgoing(to: ServerId, reply: Reply)

  /** What one call does: the replies it sends and whether the session stays open. */
  datatype Handled = Handled(sent: seq<Outgoing>, keepOpen: bool)

  /**
   * The branch after the broadcast: a cancelled event is rejected first, then
   * a missing target; otherwise the placement's target is confirmed.
   */
  function Decide(session: LoginSession, cancelled: bool, denyMessage: Option<string>,
                  target: Option<Server>): (r: Handled)
    ensures !r.keepOpen
    ensures |r.sent| == 1 && r.sent[0].to == session.serverId
    ensures r.sent[0].reply.transactionId == session.transactionId
    ensures r.sent[0].reply.ConfirmLogin? <==> !cancelled && target.Some?
    ensures cancelled ==> r.sent[0].reply == RejectLogin(session.transactionId, denyMessage.GetOr(DEFAULT_DENY_MESSAGE))
    ensures !cancelled && target.None? ==> r.sent[0].reply == RejectLogin(session.transactionId, NO_TARGET_MESSAGE)
    ensures r.sent[0].reply.ConfirmLogin? ==> r.sent[0].reply.targetId == target.value.id
  {
    var tid := session.transactionId;
    var reply :=
      if cancelled then
        RejectLogin(tid, match denyMessage case Some(m) => m case None => DEFAULT_DENY_MESSAGE)
      else if target.None? then RejectLogin(tid, NO_TARGET_MESSAGE)
      else ConfirmLogin(tid, target.value.id);
    Handled([Outgoing(session.serverId, reply)], false)
  }

  /** This command keeps conversation state, so the dispatcher opens a session for it. */
  function CreateSession(): (r: bool)
    ensures r
  {
    true
  }

  /** The event manager's broadcast: every listener's edits, in registration order. */
  method Broadcast(event: PlayerInitialLoginEvent, edits: seq<Edit>)
    modifies event
    ensures event.State() == ApplyAll(old(event.State()), edits)
  {
    ghost var start := event.State();
    for i := 0 to |edits|
      invariant event.State() == ApplyAll(start, edits[..i])
    {
      assert edits[..i + 1][..i] == edits[..i];
      match edits[i]
      case Retarget(t, l) => event.SetTarget(t, l);
      case Deny(m) => event.SetDenyMessage(m);
      case SetCancelledTo(c) => event.SetCancelled(c);
    }
    assert edits[..|edits|] == edits;
  }

  /**
   * `handleRequest`: looks up the player's location, asks the placement for a
   * target, lets the listeners edit the event, and sends one reply. The
   * confirmation names the placement's target, whatever `setTarget` calls the
   * listeners made.
   */
  method HandleRequest(session: LoginSession, store: PlayerStore,
                       placement: Option<Location> -> Option<Server>, edits: seq<Edit>)
    returns (r: Handled)
    ensures var location := store.GetLocation(session.player);
            var target := placement(location);
            var final := ApplyAll(EventState(session.player, session.ip, None, location, target, false), edits);
            r == Decide(session, final.cancelled, final.denyMessage, target)
    ensures r.sent[0].reply.ConfirmLogin? ==>
              r.sent[0].reply.targetId == placement(store.GetLocation(session.player)).value.id
  {
    var location := store.GetLocation(session.player);
    var target := placement(location);
    var event := new PlayerInitialLoginEvent(session.player, session.ip, target, location);
    Broadcast(event, edits);
    var msg;
    if event.cancelled {
      if event.denyMessage.Some? {
        msg := event.denyMessage.value;
      } else {
        msg := DEFAULT_DENY_MESSAGE;
      }
      return Handled([Outgoing(session.serverId, RejectLogin(session.transactionId, msg))], false);
    }
    if target.None? {
      return Handled([Outgoing(session.serverId, RejectLogin(session.transactionId, NO_TARGET_MESSAGE))], false);
    }
    return Handled([Outgoing(session.serverId, ConfirmLogin(session.transactionId, target.value.id))], false);
  }

  /** A listener that denies the login decides the reply, with its message, whatever the placement found. */
  lemma DenyingListenerRejects(session: LoginSession, initial: EventState, edits: seq<Edit>,
                               k: nat, target: Option<Server>)
    requires k < |edits| && edits[k].Deny? && edits[k].message.Some?
    requires forall j :: k < j < |edits| ==> edits[j].Retarget?
    ensures var final := ApplyAll(initial, edits);
            Decide(session, final.cancelled, final.denyMessage, target).sent[0].reply ==
              RejectLogin(session.transactionId, edits[k].message.value)
  {
    DenyMessageKept(initial, edits, k);
  }

  /** Retargeting edits after a denial keep its message. */
  lemma {:induction false} DenyMessageKept(initial: EventState, edits: seq<Edit>, k: nat)
    requires k < |edits| && edits[k].Deny?
    requires forall j :: k < j < |edits| ==> edits[j].Retarget?
    ensures ApplyAll(initial, edits).denyMessage == edits[k].message
    ensures ApplyAll(initial, edits).cancelled
  {
    var init := edits[..|edits| - 1];
    if k < |edits| - 1 {
      assert forall j :: k < j < |init| ==> init[j] == edits[j];
      DenyMessageKept(initial, init, k);
    }
  }
}
