/**
 * Runs of the bot: any sequence of handler invocations, each applied
 * atomically to the two dictionaries. The lemmas state what holds of every
 * run, not just of one call.
 */
module Lifecycle {
  import opened Wrappers
  import opened Registry
  import Text

  /** One handler invocation together with the platform outcomes it meets. */
  datatype Event =
    | VoiceStateUpdate(member: UserId, before: Option<ChannelId>, after: Option<VoiceChannel>,
                       send: SendOutcome, occupants: nat, deleteOk: bool)
    | SquadButtonPressed(owner: UserId, actor: UserId, button: SquadButton, env: Creation, now: real)
    | CreateButtonPressed(owner: UserId, actor: UserId)
    | CustomNameSubmitted(owner: UserId, typed: string, env: Creation, now: real)
    | ViewTimedOut(owner: UserId)

  function Step(s: State, e: Event): State {
    match e
    case VoiceStateUpdate(member, before, after, send, occupants, deleteOk) =>
      OnVoiceStateUpdate(s, member, before, after, send, occupants, deleteOk).state
    case SquadButtonPressed(owner, actor, button, env, now) =>
      PressSquadButton(s, owner, actor, button, env, now).state
    case CreateButtonPressed(owner, actor) =>
      PressCreateButton(s, owner, actor).state
    case CustomNameSubmitted(owner, typed, env, now) =>
      SubmitCustomName(s, owner, typed, env, now).state
    case ViewTimedOut(owner) =>
      ClearPending(s, owner)
  }

  function Run(s: State, events: seq<Event>): State
    decreases |events|
  {
    if events == [] then s else Run(Step(s, events[0]), events[1..])
  }

  /** The event reports a member leaving `channel` (the only way a tracked channel can be deleted). */
  predicate LeavesChannel(e: Event, channel: ChannelId) {
    e.VoiceStateUpdate? && e.before == Some(channel)
  }

  /**
   * The event can end `owner`'s pending setup: a timeout, or a choice the
   * owner makes on the owner's own prompt. A squad press by anyone else is
   * rejected and cannot end it.
   */
  predicate CanEndSetup(e: Event, owner: UserId) {
    || e == ViewTimedOut(owner)
    || (e.SquadButtonPressed? && e.owner == owner && e.actor == owner)
    || (e.CustomNameSubmitted? && e.owner == owner)
  }

  /** Every handler keeps every temp_channels entry well-formed. */
  lemma StepKeepsValid(s: State, e: Event)
    requires Valid(s)
    ensures Valid(Step(s, e))
  {
  }

  /** So does every run: squads have 1 to 4 slots and unlimited channels size 0. */
  lemma {:induction false} RunKeepsValid(s: State, events: seq<Event>)
    requires Valid(s)
    ensures Valid(Run(s, events))
    decreases |events|
  {
    if events != [] {
      StepKeepsValid(s, events[0]);
      RunKeepsValid(Step(s, events[0]), events[1..]);
    }
  }

  /** A tracked channel stays tracked through any event other than a departure from it. */
  lemma StepKeepsTracked(s: State, e: Event, channel: ChannelId)
    requires channel in s.tempChannels && !LeavesChannel(e, channel)
    ensures channel in Step(s, e).tempChannels
  {
  }

  /**
   * A tracked channel stays tracked until somebody leaves it. In particular
   * the channel left behind by a failed move, which its owner never entered,
   * is not deleted by any run in which nobody leaves it.
   */
  lemma {:induction false} TrackedUntilLeft(s: State, events: seq<Event>, channel: ChannelId)
    requires channel in s.tempChannels
    requires forall k :: 0 <= k < |events| ==> !LeavesChannel(events[k], channel)
    ensures channel in Run(s, events).tempChannels
    decreases |events|
  {
    if events != [] {
      StepKeepsTracked(s, events[0], channel);
      TrackedUntilLeft(Step(s, events[0]), events[1..], channel);
    }
  }

  /** While a user's setup is pending, no event but its own end replaces or removes the entry. */
  lemma StepKeepsPending(s: State, e: Event, owner: UserId)
    requires owner in s.pendingSetups && !CanEndSetup(e, owner)
    ensures owner in Step(s, e).pendingSetups
    ensures Step(s, e).pendingSetups[owner] == s.pendingSetups[owner]
  {
    var pending := Step(s, e).pendingSetups;
    match e
    case VoiceStateUpdate(member, before, after, send, occupants, deleteOk) =>
      var joined := RegisterPending(s, member, after, send);
      assert pending == joined.state.pendingSetups;
      assert member == owner ==> joined.state == s;
    case SquadButtonPressed(o, actor, button, env, now) =>
      var r := PressSquadButton(s, o, actor, button, env, now);
      assert actor != o ==> r.state == s;
      assert pending == r.state.pendingSetups;
      assert pending == s.pendingSetups || pending == ClearPending(s, o).pendingSetups;
    case CreateButtonPressed(o, actor) =>
    case CustomNameSubmitted(o, typed, env, now) =>
      var r := SubmitCustomName(s, o, typed, env, now);
      assert pending == r.state.pendingSetups;
      assert pending == s.pendingSetups || pending == ClearPending(s, o).pendingSetups;
    case ViewTimedOut(o) =>
  }

  /**
   * One prompt per user: once a setup is pending, any number of further
   * lobby joins (by that user or anyone else) and other events leave it
   * exactly as it was, until a timeout or a choice on the owner's prompt.
   */
  lemma {:induction false} PendingUntilEnded(s: State, events: seq<Event>, owner: UserId)
    requires owner in s.pendingSetups
    requires forall k :: 0 <= k < |events| ==> !CanEndSetup(events[k], owner)
    ensures owner in Run(s, events).pendingSetups
    ensures Run(s, events).pendingSetups[owner] == s.pendingSetups[owner]
    decreases |events|
  {
    if events != [] {
      StepKeepsPending(s, events[0], owner);
      PendingUntilEnded(Step(s, events[0]), events[1..], owner);
    }
  }

  /**
   * The event creates `channel`: the owner's own squad press, or a custom
   * name that is not all whitespace, with the owner still in voice and the
   * platform returning that channel.
   */
  predicate CreatesChannel(e: Event, channel: ChannelId) {
    || (e.SquadButtonPressed? && e.actor == e.owner && e.env.memberInVoice && e.env.newChannel == Some(channel))
    || (e.CustomNameSubmitted? && !Text.AllSpace(e.typed) && e.env.memberInVoice && e.env.newChannel == Some(channel))
  }

  /**
   * A channel untracked before a run and tracked after it was created by
   * one of the run's events; from the empty state, this covers every
   * tracked channel.
   */
  lemma {:induction false} TrackedOnlyIfCreated(s: State, events: seq<Event>, channel: ChannelId)
    requires channel !in s.tempChannels
    requires channel in Run(s, events).tempChannels
    ensures exists k :: 0 <= k < |events| && CreatesChannel(events[k], channel)
    decreases |events|
  {
    if events == [] {
    } else if CreatesChannel(events[0], channel) {
      assert CreatesChannel(events[0], channel);
    } else {
      var next := Step(s, events[0]);
      assert channel !in next.tempChannels;
      TrackedOnlyIfCreated(next, events[1..], channel);
      var k :| 0 <= k < |events[1..]| && CreatesChannel(events[1..][k], channel);
      assert CreatesChannel(events[k + 1], channel);
    }
  }
}
