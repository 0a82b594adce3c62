/**
 * The in-memory bookkeeping of squad_bot.py as values: the two module-level
 * dictionaries `pending_setups` and `temp_channels`, and one transition
 * function per event handler. Every call into the platform (sending a prompt,
 * creating, moving, deleting) is an input outcome; the id of a created
 * channel is an input too. Each handler runs atomically.
 */
module Registry {
  import opened Wrappers
  import opened Settings
  import Text
  import Naming

  type UserId = int
  type ChannelId = int
  type MessageId = int

  /** The 'type' field of a `temp_channels` entry. */
  datatype ChannelType = Squad | Unlimited

  /** A `temp_channels` entry; `createdAt` is the event-loop clock reading, kept opaque. */
  datatype TempChannel = TempChannel(creatorId: UserId, createdAt: real, size: int, kind: ChannelType)

  /** Which prompt view a pending setup belongs to. */
  datatype ViewKind = SquadView | UnlimitedChannelView

  /** A `pending_setups` entry: the prompt message and its view. */
  datatype PendingSetup = PendingSetup(message: MessageId, view: ViewKind)

  datatype State = State(pendingSetups: map<UserId, PendingSetup>, tempChannels: map<ChannelId, TempChannel>)

  /** The channel of a voice state. */
  datatype VoiceChannel = VoiceChannel(id: ChannelId, name: string)

  /** Result of `after.channel.send(...)`: a message, `discord.Forbidden`, or any other exception. */
  datatype SendOutcome = Sent(message: MessageId) | Forbidden | SendFailed

  /** The four buttons of the squad prompt. */
  datatype SquadButton = SoloButton | DuoButton | TrioButton | FourButton

  /**
   * What the platform does during a channel creation: whether the owner is
   * still in a voice channel, the id of the new channel (None when
   * `create_voice_channel` raises) and whether `move_to` succeeds.
   */
  datatype Creation = Creation(memberInVoice: bool, newChannel: Option<ChannelId>, moveSucceeded: bool)

  /** The arguments of a `create_voice_channel` call that succeeded. */
  datatype NewChannel = NewChannel(id: ChannelId, name: string, userLimit: int, category: ChannelId)

  /**
   * What a button press or a modal submission ends with: one of the
   * ephemeral replies, the modal, or an exception escaping the handler.
   */
  datatype Reply = NotYourSetup | NotInVoice | EmptyName | ModalShown | ChannelReady | Raised

  datatype Outcome = Outcome(state: State, created: Option<NewChannel>, reply: Reply)

  /** After a voice-state update: the new state and whether a prompt was sent (or attempted). */
  datatype JoinOutcome = JoinOutcome(state: State, prompted: bool)

  /** The kinds of entry the handlers ever record: squads of 1 to 4, unlimited channels of size 0. */
  predicate WellFormed(t: TempChannel) {
    && (t.kind == Squad ==> 1 <= t.size <= 4)
    && (t.kind == Unlimited ==> t.size == 0)
  }

  predicate Valid(s: State) {
    forall id :: id in s.tempChannels ==> WellFormed(s.tempChannels[id])
  }

  function Empty(): State {
    State(map[], map[])
  }

  /** The size each squad button passes to create_squad_channel. */
  function ButtonSize(b: SquadButton): (r: int)
    ensures 1 <= r <= 4
    ensures r == 4 <==> b == FourButton
  {
    match b
    case SoloButton => 1
    case DuoButton => 2
    case TrioButton => 3
    case FourButton => 4
  }

  /** The lobby the member joined, if any: the squad lobby by name first, then the unlimited lobby by id. */
  function LobbyOf(after: Option<VoiceChannel>): (r: Option<ViewKind>)
    ensures after.None? ==> r.None?
    ensures r.Some? <==> after.Some? && (after.value.name == CreateSquadChannelName || after.value.id == CreateUnlimitedChannelId)
    ensures r == Some(UnlimitedChannelView) ==> after.value.name != CreateSquadChannelName
  {
    if after.Some? && after.value.name == CreateSquadChannelName then Some(SquadView)
    else if after.Some? && after.value.id == CreateUnlimitedChannelId then Some(UnlimitedChannelView)
    else None
  }

  /** The member joins a lobby while already holding a pending setup: the handler returns at once. */
  predicate AlreadyPending(s: State, member: UserId, after: Option<VoiceChannel>) {
    LobbyOf(after).Some? && member in s.pendingSetups
  }

  /**
   * The lobby half of on_voice_state_update. A prompt is attempted only for
   * a lobby join by a member without a pending setup, and a pending entry is
   * recorded only when the prompt was actually sent. `temp_channels` is
   * never touched.
   */
  function RegisterPending(s: State, member: UserId, after: Option<VoiceChannel>, send: SendOutcome): (r: JoinOutcome)
    ensures r.state.tempChannels == s.tempChannels
    ensures r.prompted <==> LobbyOf(after).Some? && member !in s.pendingSetups
    ensures !r.prompted || !send.Sent? ==> r.state == s
    ensures r.prompted && send.Sent? ==>
      && r.state.pendingSetups.Keys == s.pendingSetups.Keys + {member}
      && r.state.pendingSetups[member] == PendingSetup(send.message, LobbyOf(after).value)
      && forall u :: u in s.pendingSetups ==> r.state.pendingSetups[u] == s.pendingSetups[u]
  {
    var lobby := LobbyOf(after);
    if lobby.None? || member in s.pendingSetups then JoinOutcome(s, false)
    else if send.Sent? then
      JoinOutcome(s.(pendingSetups := s.pendingSetups[member := PendingSetup(send.message, lobby.value)]), true)
    else JoinOutcome(s, true)
  }

  /**
   * check_empty_channel: an entry is dropped only when the channel is
   * tracked, has no occupants and the delete succeeded; in every other case
   * nothing changes. `pending_setups` is never touched.
   */
  function CheckEmptyChannel(s: State, channel: ChannelId, occupants: nat, deleteOk: bool): (r: State)
    ensures r.pendingSetups == s.pendingSetups
    ensures channel !in s.tempChannels ==> r == s
    ensures occupants > 0 ==> r == s
    ensures !deleteOk ==> r == s
    ensures channel in s.tempChannels && occupants == 0 && deleteOk ==>
      && channel !in r.tempChannels
      && r.tempChannels.Keys == s.tempChannels.Keys - {channel}
      && forall id :: id in r.tempChannels ==> r.tempChannels[id] == s.tempChannels[id]
  {
    if channel in s.tempChannels && occupants == 0 && deleteOk then
      s.(tempChannels := s.tempChannels - {channel})
    else s
  }

  /** Whether the handler runs the empty-channel check on the channel the member left. */
  predicate ChecksDeparture(s: State, member: UserId, before: Option<ChannelId>, after: Option<VoiceChannel>): (r: bool)
    ensures r ==> before.Some?
    ensures LobbyOf(after).Some? && member in s.pendingSetups ==> !r
    ensures before.Some? && (LobbyOf(after).None? || member !in s.pendingSetups) ==> r
  {
    DeleteEmptyChannels && before.Some? && !AlreadyPending(s, member, after)
  }

  /**
   * on_voice_state_update. A lobby join by a member who already has a
   * pending setup changes nothing, sends no prompt, and (because the handler
   * returns early) also skips the check of the channel left behind.
   * Otherwise the pending entry is registered as in RegisterPending and the
   * channel left behind goes through check_empty_channel.
   */
  function OnVoiceStateUpdate(s: State, member: UserId, before: Option<ChannelId>, after: Option<VoiceChannel>,
                              send: SendOutcome, occupants: nat, deleteOk: bool): (r: JoinOutcome)
    ensures AlreadyPending(s, member, after) ==> r == JoinOutcome(s, false)
    ensures r.prompted == RegisterPending(s, member, after, send).prompted
    ensures r.state.pendingSetups == RegisterPending(s, member, after, send).state.pendingSetups
    ensures ChecksDeparture(s, member, before, after) ==>
      r.state.tempChannels == CheckEmptyChannel(s, before.value, occupants, deleteOk).tempChannels
    ensures !ChecksDeparture(s, member, before, after) ==> r.state.tempChannels == s.tempChannels
  {
    var joined := RegisterPending(s, member, after, send);
    if AlreadyPending(s, member, after) then joined
    else if DeleteEmptyChannels && before.Some? then
      JoinOutcome(CheckEmptyChannel(joined.state, before.value, occupants, deleteOk), joined.prompted)
    else joined
  }

  /**
   * `if user_id in pending_setups: del pending_setups[user_id]`, as on_timeout
   * of either view and a completed setup run it: the owner's pending entry
   * goes, whatever prompt it belongs to, and nothing else changes.
   */
  function ClearPending(s: State, owner: UserId): (r: State)
    ensures owner !in r.pendingSetups
    ensures r.pendingSetups.Keys == s.pendingSetups.Keys - {owner}
    ensures forall u :: u in r.pendingSetups ==> r.pendingSetups[u] == s.pendingSetups[u]
    ensures r.tempChannels == s.tempChannels
    ensures owner !in s.pendingSetups ==> r == s
  {
    if owner in s.pendingSetups then s.(pendingSetups := s.pendingSetups - {owner}) else s
  }

  /**
   * The owner's setup finishes: the new channel is recorded and, once the
   * owner has been moved, the owner's pending entry is cleared. If the move
   * raises, the entry for the new channel stays while the pending setup is
   * kept (registration happens before the move and nothing is rolled back).
   */
  function Register(s: State, owner: UserId, id: ChannelId, entry: TempChannel, moved: bool): (r: State)
    ensures r.tempChannels.Keys == s.tempChannels.Keys + {id}
    ensures r.tempChannels[id] == entry
    ensures forall c :: c in s.tempChannels && c != id ==> r.tempChannels[c] == s.tempChannels[c]
    ensures moved ==> r.pendingSetups == ClearPending(s, owner).pendingSetups
    ensures !moved ==> r.pendingSetups == s.pendingSetups
  {
    var tracked := s.tempChannels[id := entry];
    assert tracked.Keys == s.tempChannels.Keys + {id};
    var recorded := s.(tempChannels := tracked);
    if moved then ClearPending(recorded, owner) else recorded
  }

  /** A fresh channel id adds exactly one entry to temp_channels. */
  lemma RegisterFreshAddsOne(s: State, owner: UserId, id: ChannelId, entry: TempChannel, moved: bool)
    requires id !in s.tempChannels
    ensures |Register(s, owner, id, entry, moved).tempChannels| == |s.tempChannels| + 1
  {
    var r := Register(s, owner, id, entry, moved);
    assert r.tempChannels.Keys == s.tempChannels.Keys + {id};
    assert |r.tempChannels.Keys| == |s.tempChannels.Keys| + 1;
  }

  /** Recording a well-formed entry keeps every entry well-formed. */
  lemma RegisterKeepsValid(s: State, owner: UserId, id: ChannelId, entry: TempChannel, moved: bool)
    requires Valid(s) && WellFormed(entry)
    ensures Valid(Register(s, owner, id, entry, moved))
  {
  }

  /**
   * SquadView.create_squad_channel. With the owner out of voice nothing
   * changes; a failed creation changes nothing and the exception escapes
   * before any reply; otherwise a channel named
   * after the size, limited to `size` users, is created in the squad
   * category and recorded as a squad of that size owned by `owner`.
   */
  function CreateSquadChannel(s: State, owner: UserId, size: int, env: Creation, now: real): (r: Outcome)
    ensures !env.memberInVoice ==> r == Outcome(s, None, NotInVoice)
    ensures env.newChannel.None? ==> r.state == s && r.created.None?
    ensures env.memberInVoice && env.newChannel.None? ==> r == Outcome(s, None, Raised)
    ensures r.created.Some? <==> env.memberInVoice && env.newChannel.Some?
    ensures r.created.Some? ==>
      && r.created.value == NewChannel(env.newChannel.value, Naming.SquadChannelName(size), size, SquadCategoryId)
      && r.state == Register(s, owner, env.newChannel.value, TempChannel(owner, now, size, Squad), env.moveSucceeded)
      && r.reply == (if env.moveSucceeded then ChannelReady else Raised)
    ensures Valid(s) && 1 <= size <= 4 ==> Valid(r.state)
  {
    if !env.memberInVoice then Outcome(s, None, NotInVoice)
    else match env.newChannel
      case None => Outcome(s, None, Raised)
      case Some(id) =>
        var channel := NewChannel(id, Naming.SquadChannelName(size), size, SquadCategoryId);
        var entry := TempChannel(owner, now, size, Squad);
        Outcome(Register(s, owner, id, entry, env.moveSucceeded), Some(channel),
                if env.moveSucceeded then ChannelReady else Raised)
  }

  /**
   * One of the four squad buttons. A press by anyone but the prompt's owner
   * is answered with an error and changes nothing; the owner's press creates
   * a squad of the button's size.
   */
  function PressSquadButton(s: State, owner: UserId, actor: UserId, button: SquadButton, env: Creation, now: real): (r: Outcome)
    ensures actor != owner ==> r == Outcome(s, None, NotYourSetup)
    ensures actor == owner ==> r == CreateSquadChannel(s, owner, ButtonSize(button), env, now)
    ensures r.created.Some? ==> 1 <= r.created.value.userLimit <= 4
    ensures Valid(s) ==> Valid(r.state)
  {
    if actor != owner then Outcome(s, None, NotYourSetup)
    else CreateSquadChannel(s, owner, ButtonSize(button), env, now)
  }

  /** UnlimitedChannelView.create_button: only the owner gets the naming modal; no state changes. */
  function PressCreateButton(s: State, owner: UserId, actor: UserId): (r: Outcome)
    ensures r.state == s && r.created.None?
    ensures r.reply == ModalShown <==> actor == owner
    ensures actor != owner ==> r.reply == NotYourSetup
  {
    if actor != owner then Outcome(s, None, NotYourSetup) else Outcome(s, None, ModalShown)
  }

  /**
   * CustomChannelModal.on_submit. The typed name is stripped; an empty
   * result, or an owner who left voice, changes nothing, and so does a
   * failed creation, whose exception escapes before any reply. Otherwise an
   * unlimited channel (user limit 0) with the stripped name is created in
   * the unlimited category and recorded with size 0 and type unlimited.
   */
  function SubmitCustomName(s: State, owner: UserId, typed: string, env: Creation, now: real): (r: Outcome)
    ensures Text.AllSpace(typed) ==> r == Outcome(s, None, EmptyName)
    ensures !Text.AllSpace(typed) && !env.memberInVoice ==> r == Outcome(s, None, NotInVoice)
    ensures r.created.Some? <==> !Text.AllSpace(typed) && env.memberInVoice && env.newChannel.Some?
    ensures r.created.None? ==> r.state == s
    ensures !Text.AllSpace(typed) && env.memberInVoice && env.newChannel.None? ==> r == Outcome(s, None, Raised)
    ensures r.created.Some? ==>
      && r.created.value == NewChannel(env.newChannel.value, Text.Strip(typed), 0, UnlimitedCategoryId)
      && r.created.value.name != [] && Text.Stripped(r.created.value.name)
      && r.state == Register(s, owner, env.newChannel.value, TempChannel(owner, now, 0, Unlimited), env.moveSucceeded)
      && r.reply == (if env.moveSucceeded then ChannelReady else Raised)
    ensures Valid(s) ==> Valid(r.state)
  {
    var name := Text.Strip(typed);
    if name == [] then Outcome(s, None, EmptyName)
    else if !env.memberInVoice then Outcome(s, None, NotInVoice)
    else match env.newChannel
      case None => Outcome(s, None, Raised)
      case Some(id) =>
        var channel := NewChannel(id, name, 0, UnlimitedCategoryId);
        var entry := TempChannel(owner, now, 0, Unlimited);
        Outcome(Register(s, owner, id, entry, env.moveSucceeded), Some(channel),
                if env.moveSucceeded then ChannelReady else Raised)
  }

  /** A second timeout for the same owner is a no-op. */
  lemma TimeoutIdempotent(s: State, owner: UserId)
    ensures ClearPending(ClearPending(s, owner), owner) == ClearPending(s, owner)
  {
  }

  /** Running the empty-channel check again after a deletion changes nothing. */
  lemma CheckEmptyChannelIdempotent(s: State, channel: ChannelId, occupants: nat, deleteOk: bool)
    ensures var once := CheckEmptyChannel(s, channel, occupants, deleteOk);
            CheckEmptyChannel(once, channel, occupants, deleteOk) == once
  {
  }

  /**
   * A member whose prompt was sent is not prompted again on a second lobby
   * join, and that second join leaves both maps as the first one left them.
   */
  lemma SecondJoinNotPrompted(s: State, member: UserId, after: Option<VoiceChannel>, m: MessageId,
                              after2: Option<VoiceChannel>, send2: SendOutcome)
    requires member !in s.pendingSetups && LobbyOf(after).Some? && LobbyOf(after2).Some?
    ensures var first := RegisterPending(s, member, after, Sent(m));
            var second := RegisterPending(first.state, member, after2, send2);
            first.prompted && !second.prompted && second.state == first.state
  {
  }

  /**
   * The orphan left by a failed move: the new channel is tracked while its
   * owner is not in it, and the owner's prompt is still pending.
   */
  lemma FailedMoveLeavesTrackedChannel(s: State, owner: UserId, button: SquadButton, id: ChannelId, now: real)
    requires owner in s.pendingSetups
    ensures var r := PressSquadButton(s, owner, owner, button, Creation(true, Some(id), false), now);
            && id in r.state.tempChannels
            && r.state.tempChannels[id].creatorId == owner
            && owner in r.state.pendingSetups
            && r.reply == Raised
  {
  }
}
