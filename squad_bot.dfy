/**
 * The handlers of squad_bot.py as they run: one object holding the two
 * dictionaries the handlers update in place, and one method per handler.
 * Each method is proved to leave exactly the state, and give exactly the
 * answer, that the matching function of module Registry describes.
 */
module SquadBot {
  import opened Wrappers
  import opened Settings
  import Text
  import Naming
  import Registry

  class Bot {
    /** `pending_setups`: user id to the prompt waiting for that user's choice. */
    var pendingSetups: map<Registry.UserId, Registry.PendingSetup>
    /** `temp_channels`: channel id to the record of a channel the bot created. */
    var tempChannels: map<Registry.ChannelId, Registry.TempChannel>

    function Snapshot(): Registry.State
      reads this
    {
      Registry.State(pendingSetups, tempChannels)
    }

    ghost predicate Valid()
      reads this
    {
      Registry.Valid(Snapshot())
    }

    constructor ()
      ensures Valid()
      ensures Snapshot() == Registry.Empty()
    {
      pendingSetups := map[];
      tempChannels := map[];
    }

    /**
     * on_voice_state_update. `before` is the channel the member left (if
     * any), `after` the one joined; `send` is the result of posting the
     * prompt, `occupants` and `deleteOk` what check_empty_channel sees.
     */
    method OnVoiceStateUpdate(member: Registry.UserId, before: Option<Registry.ChannelId>,
                              after: Option<Registry.VoiceChannel>, send: Registry.SendOutcome,
                              occupants: nat, deleteOk: bool) returns (prompted: bool)
      requires Valid()
      modifies this
      ensures Valid()
      ensures Registry.JoinOutcome(Snapshot(), prompted)
           == Registry.OnVoiceStateUpdate(old(Snapshot()), member, before, after, send, occupants, deleteOk)
    {
      prompted := false;
      var lobby := Registry.LobbyOf(after);
      if lobby.Some? {
        if member in pendingSetups {
          return;
        }
        prompted := true;
        match send {
          case Sent(message) =>
            pendingSetups := pendingSetups[member := Registry.PendingSetup(message, lobby.value)];
          case Forbidden =>
          case SendFailed =>
        }
      }
      if DeleteEmptyChannels && before.Some? {
        var _ := CheckEmptyChannel(before.value, occupants, deleteOk);
      }
    }

    /** check_empty_channel; `deleted` tells whether the channel was deleted. */
    method CheckEmptyChannel(channel: Registry.ChannelId, occupants: nat, deleteOk: bool) returns (deleted: bool)
      requires Valid()
      modifies this
      ensures Valid()
      ensures Snapshot() == Registry.CheckEmptyChannel(old(Snapshot()), channel, occupants, deleteOk)
      ensures deleted <==> channel in old(tempChannels) && occupants == 0 && deleteOk
    {
      deleted := false;
      if channel !in tempChannels {
        return;
      }
      if occupants == 0 {
        if deleteOk {
          tempChannels := tempChannels - {channel};
          deleted := true;
        }
      }
    }

    /** SquadView.create_squad_channel for the owner of the prompt. */
    method CreateSquadChannel(owner: Registry.UserId, size: int, env: Registry.Creation, now: real)
      returns (reply: Registry.Reply, created: Option<Registry.NewChannel>)
      requires Valid()
      modifies this
      ensures 1 <= size <= 4 ==> Valid()
      ensures Registry.Outcome(Snapshot(), created, reply)
           == Registry.CreateSquadChannel(old(Snapshot()), owner, size, env, now)
    {
      var name := Naming.SquadChannelName(size);
      if !env.memberInVoice {
        return Registry.NotInVoice, None;
      }
      if env.newChannel.None? {
        return Registry.Raised, None;
      }
      var id := env.newChannel.value;
      var entry := Registry.TempChannel(owner, now, size, Registry.Squad);
      created := Some(Registry.NewChannel(id, name, size, SquadCategoryId));
      tempChannels := tempChannels[id := entry];
      reply := Registry.Raised;
      if env.moveSucceeded {
        reply := Registry.ChannelReady;
        if owner in pendingSetups {
          pendingSetups := pendingSetups - {owner};
        }
      }
      assert Snapshot() == Registry.Register(old(Snapshot()), owner, id, entry, env.moveSucceeded);
      if Registry.WellFormed(entry) {
        Registry.RegisterKeepsValid(old(Snapshot()), owner, id, entry, env.moveSucceeded);
      }
    }

    /** solo_button, duo_button, trio_button and squad_button of SquadView. */
    method PressSquadButton(owner: Registry.UserId, actor: Registry.UserId, button: Registry.SquadButton,
                            env: Registry.Creation, now: real)
      returns (reply: Registry.Reply, created: Option<Registry.NewChannel>)
      requires Valid()
      modifies this
      ensures Valid()
      ensures Registry.Outcome(Snapshot(), created, reply)
           == Registry.PressSquadButton(old(Snapshot()), owner, actor, button, env, now)
    {
      if actor != owner {
        return Registry.NotYourSetup, None;
      }
      reply, created := CreateSquadChannel(owner, Registry.ButtonSize(button), env, now);
    }

    /** UnlimitedChannelView.create_button: opens the naming modal for the owner only. */
    method PressCreateButton(owner: Registry.UserId, actor: Registry.UserId) returns (reply: Registry.Reply)
      ensures Registry.Outcome(Snapshot(), None, reply) == Registry.PressCreateButton(Snapshot(), owner, actor)
      ensures reply == Registry.ModalShown <==> actor == owner
    {
      if actor != owner {
        return Registry.NotYourSetup;
      }
      reply := Registry.ModalShown;
    }

    /** CustomChannelModal.on_submit with the text the owner typed. */
    method SubmitCustomName(owner: Registry.UserId, typed: string, env: Registry.Creation, now: real)
      returns (reply: Registry.Reply, created: Option<Registry.NewChannel>)
      requires Valid()
      modifies this
      ensures Valid()
      ensures Registry.Outcome(Snapshot(), created, reply)
           == Registry.SubmitCustomName(old(Snapshot()), owner, typed, env, now)
    {
      var name := Text.Strip(typed);
      if name == [] {
        return Registry.EmptyName, None;
      }
      if !env.memberInVoice {
        return Registry.NotInVoice, None;
      }
      if env.newChannel.None? {
        return Registry.Raised, None;
      }
      var id := env.newChannel.value;
      var entry := Registry.TempChannel(owner, now, 0, Registry.Unlimited);
      created := Some(Registry.NewChannel(id, name, 0, UnlimitedCategoryId));
      tempChannels := tempChannels[id := entry];
      reply := Registry.Raised;
      if env.moveSucceeded {
        reply := Registry.ChannelReady;
        if owner in pendingSetups {
          pendingSetups := pendingSetups - {owner};
        }
      }
      assert Snapshot() == Registry.Register(old(Snapshot()), owner, id, entry, env.moveSucceeded);
      if Registry.WellFormed(entry) {
        Registry.RegisterKeepsValid(old(Snapshot()), owner, id, entry, env.moveSucceeded);
      }
    }

    /** on_timeout of SquadView and of UnlimitedChannelView. */
    method OnTimeout(owner: Registry.UserId)
      requires Valid()
      modifies this
      ensures Valid()
      ensures Snapshot() == Registry.ClearPending(old(Snapshot()), owner)
    {
      if owner in pendingSetups {
        pendingSetups := pendingSetups - {owner};
      }
    }
  }
}
