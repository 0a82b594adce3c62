# Squad bot room lifecycle, in Dafny

A Discord bot (`squad_bot.py`) creates temporary voice channels for its users:

- A member who joins the squad lobby ("Criar Squad", matched by name) gets a prompt with four buttons. The buttons create a squad channel limited to 1, 2, 3 or 4 users.
- A member who joins the unlimited lobby (matched by id) gets a prompt with one button. The button opens a modal asking for a channel name, and submitting it creates a channel with no user limit.
- The bot deletes a channel it created once the last member leaves it.

The bot's state is two in-memory dictionaries that its event handlers update in place:

- `pending_setups` maps a user id to the prompt waiting for that user's choice.
- `temp_channels` maps a channel id to `{creator_id, created_at, size, type}` for each channel the bot created.

The project models this bookkeeping.

- `registry.dfy` (module `Registry`) gives the state as a value (`State`) and one transition function per handler. Their contracts state the guards and what stays unchanged.
- `squad_bot.dfy` (module `SquadBot`) is the running bot: class `Bot` holds the two maps and has one method per handler. Each method updates the fields in place. Each method is proved to leave exactly the state that the matching `Registry` function gives, and to give the same answer.
- `lifecycle.dfy` (module `Lifecycle`) folds handlers over event sequences. It proves facts about whole runs by induction.
- `naming.dfy` holds the squad channel-name formula. `text.dfy` holds Python's `str.strip()`. `settings.dfy` holds the configuration constants. `wrappers.dfy` holds `Option`.

The platform is a parameter of each handler: whether the prompt was sent (and the message id if it was), whether the owner is still in voice, the id of the new channel (or a failed creation), whether the move and the delete succeeded, the occupant count of the channel left, and the actor who pressed a button. Each handler runs atomically.

The model follows the code as written, including these behaviours of it:

- A new channel is recorded in `temp_channels` before the owner is moved into it (`squad_bot.py:139-148`, `squad_bot.py:69-78`).
- Nothing is rolled back when the move raises. The channel stays recorded with nobody in it, and the owner's pending setup stays. Because a channel is only checked when someone leaves it, such a channel is never deleted unless someone enters and leaves it. `FailedMoveLeavesTrackedChannel` and `TrackedUntilLeft` state this.
- A custom name that is empty after stripping is rejected (`EmptyName`); the code has no fallback to a generated name.
- There is no numeric-suffix name resolver and no periodic sweep.
- When a member who already has a pending setup joins a lobby, the handler returns at once (`squad_bot.py:238-239`, `squad_bot.py:263-264`). This also skips the empty-channel check of the channel that member just left. `Registry.OnVoiceStateUpdate` and `ChecksDeparture` model this.
- A prompt timeout clears the pending entry of the view's user, whichever prompt that entry belongs to (`ClearPending` is keyed by user only).

## Model

| member | source | states |
|---|---|---|
| Text.Strip | squad_bot.py:41 | `str.strip()`: the result has no whitespace at either end, is no longer than the input, and is empty exactly when the input is all whitespace |
| Text.TrimStart | squad_bot.py:41 | the leading half of strip: the result is a suffix of the input and everything dropped is whitespace |
| Text.TrimEnd | squad_bot.py:41 | the trailing half of strip: the result is a prefix of the input and everything dropped is whitespace |
| Text.StripSurrounded | squad_bot.py:41 | strip removes exactly the whitespace around a non-empty string whose own ends are not whitespace |
| Text.StripIdempotent | squad_bot.py:41 | stripping twice is the same as stripping once |
| Naming.SquadSuffix | squad_bot.py:117-118 | the `name_suffix` table read with `.get(size, '')`: a suffix (in parentheses) exactly for sizes 1 to 3, the empty string for 4 and for every other size |
| Naming.SquadChannelName | squad_bot.py:117-118 | the squad channel name starts with CHANNEL_PREFIX and is exactly the prefix when the size has no suffix |
| Naming.SquadChannelNameIsFormula | squad_bot.py:117-118 | the squad channel name equals `f"{CHANNEL_PREFIX} {suffix}".strip()` with the suffix table and its `''` default, and is non-empty with no whitespace at either end |
| Naming.SquadChannelNames | squad_bot.py:117-118 | sizes 1, 2, 3 and 4 give "WT Squad (Solo)", "WT Squad (Duo)", "WT Squad (Trio)" and "WT Squad" (no trailing space) |
| Naming.SquadChannelNamesDistinct | squad_bot.py:117-118 | the four button sizes give four different names |
| Registry.ButtonSize | squad_bot.py:168-194 | the four squad buttons pass sizes 1 to 4; only the fourth passes 4 |
| Registry.LobbyOf | squad_bot.py:236-261 | a voice state counts as a lobby join exactly when the channel joined has the squad lobby's name or the unlimited lobby's id; the name test comes first, so a channel with the squad lobby's name is never the unlimited lobby |
| Registry.ChecksDeparture | squad_bot.py:236-287 | the channel left is checked only when there was one; a lobby join by a member with a pending setup skips the check; every other departure is checked |
| Registry.RegisterPending | squad_bot.py:235-283 | a prompt is attempted only for a lobby join by a member without a pending setup; an entry (message, view kind) is recorded only when the send succeeded, and Forbidden or any other failure leaves both maps unchanged; `temp_channels` is never touched |
| Registry.CheckEmptyChannel | squad_bot.py:290-301 | an untracked channel, an occupied channel or a failed delete changes nothing; a tracked, empty channel whose delete succeeds loses exactly its own entry; `pending_setups` is never touched |
| Registry.OnVoiceStateUpdate | squad_bot.py:231-287 | a lobby join by a member with a pending setup changes nothing and sends no prompt; otherwise registration as in RegisterPending, then the empty-channel check of the channel left, but only if DELETE_EMPTY_CHANNELS is set and there was a previous channel |
| Registry.ClearPending | squad_bot.py:104-112 | the timeout of either view (and the cleanup after a completed setup) removes the user's pending entry if present and nothing else; on an absent entry it is a no-op |
| Registry.TimeoutIdempotent | squad_bot.py:204-212 | a second timeout for the same user changes nothing |
| Registry.Register | squad_bot.py:139-164 | a creation adds the new channel's entry and keeps every other entry; the owner's pending entry is cleared only once the move succeeded |
| Registry.RegisterFreshAddsOne | squad_bot.py:69-75 | with a fresh channel id, `temp_channels` grows by exactly one entry |
| Registry.RegisterKeepsValid | squad_bot.py:139-145 | recording a well-formed entry keeps every entry well-formed |
| Registry.CreateSquadChannel | squad_bot.py:114-166 | an owner no longer in voice gets NotInVoice and nothing changes; a failed creation changes nothing and raises, with no success reply; otherwise the channel is created with the formula name, user limit = size and the squad category, and recorded as a squad of that size owned by the owner; after a successful move the owner's pending entry is gone |
| Registry.PressSquadButton | squad_bot.py:168-194 | a press by anyone but the owner gets NotYourSetup and changes nothing; the owner's press creates a squad of the button's size (user limit 1 to 4); well-formedness is kept |
| Registry.PressCreateButton | squad_bot.py:214-222 | only the owner gets the naming modal; nothing changes in either case |
| Registry.SubmitCustomName | squad_bot.py:39-94 | the typed name is stripped; an all-whitespace name or an owner out of voice changes nothing; a failed creation changes nothing and raises, with no success reply; otherwise a channel with the stripped name, user limit 0 and the unlimited category is created and recorded with size 0 and type unlimited |
| Registry.CheckEmptyChannelIdempotent | squad_bot.py:290-301 | running the empty-channel check again right after it changes nothing |
| Registry.SecondJoinNotPrompted | squad_bot.py:236-254 | after a prompt was sent, a second lobby join by the same member is not prompted and leaves both maps as they were |
| Registry.FailedMoveLeavesTrackedChannel | squad_bot.py:139-148 | when the move raises, the new channel is tracked under the owner while the owner's setup is still pending |
| SquadBot.Bot.constructor | squad_bot.py:21-23 | both dictionaries start empty |
| SquadBot.Bot.OnVoiceStateUpdate | squad_bot.py:231-287 | updates the fields in place exactly as Registry.OnVoiceStateUpdate describes and reports whether a prompt was attempted |
| SquadBot.Bot.CheckEmptyChannel | squad_bot.py:290-301 | updates `tempChannels` as Registry.CheckEmptyChannel describes; `deleted` holds exactly when the channel was tracked, empty and deleted |
| SquadBot.Bot.CreateSquadChannel | squad_bot.py:114-166 | updates both fields and returns the reply and the created channel as Registry.CreateSquadChannel describes; keeps every entry well-formed for sizes 1 to 4 |
| SquadBot.Bot.PressSquadButton | squad_bot.py:168-194 | the owner check in front of CreateSquadChannel, as Registry.PressSquadButton describes |
| SquadBot.Bot.PressCreateButton | squad_bot.py:214-222 | shows the modal exactly when the actor is the owner |
| SquadBot.Bot.SubmitCustomName | squad_bot.py:39-94 | updates both fields and returns the reply and the created channel as Registry.SubmitCustomName describes |
| SquadBot.Bot.OnTimeout | squad_bot.py:104-112 | removes the owner's pending entry as Registry.ClearPending describes |
| Lifecycle.StepKeepsValid | squad_bot.py:139-145 | every handler keeps squads at 1 to 4 slots and unlimited channels at size 0 |
| Lifecycle.RunKeepsValid | squad_bot.py:69-75 | so does every sequence of handler runs |
| Lifecycle.StepKeepsTracked | squad_bot.py:285-298 | a tracked channel stays tracked through every event except a departure from it |
| Lifecycle.TrackedUntilLeft | squad_bot.py:285-298 | over any run in which nobody leaves a tracked channel, the channel stays tracked |
| Lifecycle.StepKeepsPending | squad_bot.py:236-239 | a pending setup is neither replaced nor removed by any event except its own timeout or a choice the owner makes on its own prompt; squad presses by other users leave it as it was |
| Lifecycle.PendingUntilEnded | squad_bot.py:261-264 | one prompt per user: over any run without a timeout for that user or a choice by that user on that user's prompt, the pending entry stays exactly as it was, however many lobby joins or presses by others occur |
| Lifecycle.TrackedOnlyIfCreated | squad_bot.py:139-145 | a channel untracked before a run and tracked after it was created by one of the run's events: the owner's own squad press, or a custom name that is not all whitespace, with the owner in voice and the platform returning that channel |

## Left out

- Sending and deleting prompt messages, rendering the views and the modal, the reply texts, emoji and button styles: these are platform I/O. Each outcome is an input, and each reply is a `Reply` value.
- The views' `message` and `voice_state` fields: these only feed platform calls (`message.delete()`, finding the guild). A view is represented by its owner's user id, and a pending entry by the message id and the view kind.
- The real-time timers (`timeout=30`, `delete_after=35`): a timeout is an explicit event. Whether the platform still delivers button presses for a view that timed out is not modelled; the model accepts a press at any time.
- `created_at`: the event-loop clock reading is passed in as an opaque number.
- The platform's length limit on the modal's text input (1 to 100 characters) is not modelled; every string is accepted.
- Category lookup: `guild.get_channel(...)` may return None. A created channel records the configured category id.
- A failed reply (`interaction.response.send_message` raising) is not modelled; replies always succeed.
- Async interleaving: each handler is atomic, so a race between the pending check and the send is not represented.
- Bot construction, intents, `on_ready`, `bot.run`, logging, and the credential loading in `config.py`: these are plumbing with no bookkeeping.
- Naming.SquadChannelName is stated as "prefix, plus a space and the suffix when there is one", not as a call to strip. Naming.SquadChannelNameIsFormula proves that the two are equal for every size.
