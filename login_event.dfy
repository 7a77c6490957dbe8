/**
 * `PlayerInitialLoginEvent`: the cancellable decision record listeners edit
 * in place before a first login is answered.
 */
module LoginEvent {
  import opened Wrappers
  import opened ZeusTypes

  /** Everything a listener or the publisher can observe of the event. */
  datatype EventState = EventState(player: PlayerId, ip: Option<IpAddress>, denyMessage: Option<string>,
                                   location: Option<Location>, target: Option<Server>, cancelled: bool)

  /** The event's state after `setDenyMessage(message)`. */
  function Denied(s: EventState, message: Option<string>): (r: EventState)
    ensures r.denyMessage == message && r.cancelled
    ensures r.(denyMessage := s.denyMessage, cancelled := s.cancelled) == s
  {
    s.(denyMessage := message, cancelled := true)
  }

  /** Denying twice with one message leaves the state denying once leaves. */
  lemma DeniedIdempotent(s: EventState, message: Option<string>)
    ensures Denied(Denied(s, message), message) == Denied(s, message)
  {
  }

  /** One change a listener makes through the event's public setters. */
  datatype Edit =
    | Retarget(target: Option<Server>, location: Option<Location>)  // setTarget
    | Deny(message: Option<string>)                                 // setDenyMessage
    | SetCancelledTo(cancelled: bool)                               // setCancelled, inherited

  /** The state after one edit. */
  function Apply(s: EventState, e: Edit): (r: EventState)
    ensures r.player == s.player && r.ip == s.ip
  {
    match e
    case Retarget(t, l) => s.(target := t, location := l)
    case Deny(m) => Denied(s, m)
    case SetCancelledTo(c) => s.(cancelled := c)
  }

  /** The state after the edits, applied in order. */
  function ApplyAll(s: EventState, edits: seq<Edit>): (r: EventState)
    ensures r.player == s.player && r.ip == s.ip
    ensures (exists k :: 0 <= k < |edits| && edits[k].Deny? &&
               forall j :: k < j < |edits| ==> !edits[j].SetCancelledTo?) ==> r.cancelled
  {
    if edits == [] then s
    else
      var init := edits[..|edits| - 1];
      var last := edits[|edits| - 1];
      assert forall j :: 0 <= j < |init| ==> init[j] == edits[j];
      Apply(ApplyAll(s, init), last)
  }

  class PlayerInitialLoginEvent {
    const player: PlayerId
    const ip: Option<IpAddress>
    var denyMessage: Option<string>
    var location: Option<Location>
    var intendedTargetServer: Option<Server>
    /** The flag `CancellableEvent` keeps. */
    var cancelled: bool

    function State(): EventState
      reads this
    {
      EventState(player, ip, denyMessage, location, intendedTargetServer, cancelled)
    }

    constructor (player: PlayerId, ip: Option<IpAddress>, server: Option<Server>, location: Option<Location>)
      ensures this.player == player && this.ip == ip
      ensures intendedTargetServer == server && this.location == location
      ensures denyMessage.None? && !cancelled
    {
      this.player := player;
      this.ip := ip;
      this.intendedTargetServer := server;
      this.location := location;
      this.denyMessage := None;
      this.cancelled := false;
    }

    /** Replaces target and location together; nothing else changes. */
    method SetTarget(target: Option<Server>, location: Option<Location>)
      modifies this
      ensures intendedTargetServer == target && this.location == location
      ensures denyMessage == old(denyMessage) && cancelled == old(cancelled)
      ensures State() == Apply(old(State()), Retarget(target, location))
    {
      this.location := location;
      this.intendedTargetServer := target;
    }

    /** Sets the deny message and cancels the login. */
    method SetDenyMessage(message: Option<string>)
      modifies this
      ensures denyMessage == message && cancelled
      ensures location == old(location) && intendedTargetServer == old(intendedTargetServer)
      ensures State() == Denied(old(State()), message)
    {
      this.denyMessage := message;
      SetCancelled(true);
    }

    /** The inherited cancellation setter. */
    method SetCancelled(cancelled: bool)
      modifies this
      ensures State() == old(State()).(cancelled := cancelled)
    {
      this.cancelled := cancelled;
    }
  }
}
