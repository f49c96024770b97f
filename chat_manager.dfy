/**
 * ChatManager from the sample chat application: channels and users by id,
 * and the rendering of a chat message, which checks the channel first and
 * the user second.
 */
module Chat {
  import opened Wrappers
  import opened Strings

  datatype Channel = Channel(id: int, name: string)
  datatype User = User(id: int, name: string)
  datatype Message = Message(channelId: int, userId: int, text: string)

  datatype ChatError = UnknownChannel(channelId: int) | UnknownUser(userId: int)

  /** messageToString on given maps. */
  function Format(channels: map<int, Channel>, users: map<int, User>, m: Message): (r: Result<string, ChatError>)
    ensures m.channelId !in channels ==> r == Failure(UnknownChannel(m.channelId))
    ensures m.channelId in channels && m.userId !in users ==> r == Failure(UnknownUser(m.userId))
    ensures r.Success? <==> m.channelId in channels && m.userId in users
    ensures r.Success? ==>
      StartsWith(r.value, "[" + channels[m.channelId].name + "] " + users[m.userId].name + ": ") &&
      EndsWith(r.value, m.text) &&
      |r.value| == |channels[m.channelId].name| + |users[m.userId].name| + |m.text| + 5
  {
    if m.channelId !in channels then Failure(UnknownChannel(m.channelId))
    else if m.userId !in users then Failure(UnknownUser(m.userId))
    else
      var prefix := "[" + channels[m.channelId].name + "] " + users[m.userId].name + ": ";
      var s := prefix + m.text;
      assert s[..|prefix|] == prefix;
      assert s[|s| - |m.text|..] == m.text;
      Success(s)
  }

  class ChatManager {
    var channels: map<int, Channel>
    var users: map<int, User>

    constructor ()
      ensures channels == map[] && users == map[]
    {
      channels := map[];
      users := map[];
    }

    /** registerChannel: stored under its id, replacing any earlier one. */
    method RegisterChannel(c: Channel)
      modifies this
      ensures channels == old(channels)[c.id := c] && users == old(users)
    {
      channels := channels[c.id := c];
    }

    /** registerUser: stored under its id, replacing any earlier one. */
    method RegisterUser(u: User)
      modifies this
      ensures users == old(users)[u.id := u] && channels == old(channels)
    {
      users := users[u.id := u];
    }

    /** messageToString: a read of both maps that changes neither. */
    function MessageToString(m: Message): (r: Result<string, ChatError>)
      reads this
      ensures r == Format(channels, users, m)
    {
      Format(channels, users, m)
    }
  }

  /** After registering a message's channel and user, it renders with their names. */
  lemma RegisteredMessageFormats(channels: map<int, Channel>, users: map<int, User>, c: Channel, u: User, text: string)
    ensures Format(channels[c.id := c], users[u.id := u], Message(c.id, u.id, text)) ==
      Success("[" + c.name + "] " + u.name + ": " + text)
  {
  }

  /** A missing channel is reported even when the user is missing too. */
  lemma ChannelCheckedFirst(channels: map<int, Channel>, users: map<int, User>, m: Message)
    requires m.channelId !in channels && m.userId !in users
    ensures Format(channels, users, m) == Failure(UnknownChannel(m.channelId))
  {
  }

  /** Registering a user can never rescue a message to an unknown channel. */
  lemma UserCannotRescueChannel(channels: map<int, Channel>, users: map<int, User>, u: User, m: Message)
    requires m.channelId !in channels
    ensures Format(channels, users[u.id := u], m) == Failure(UnknownChannel(m.channelId))
  {
  }

  /** Registering a channel under another id does not change how a message renders. */
  lemma OtherChannelIrrelevant(channels: map<int, Channel>, users: map<int, User>, c: Channel, m: Message)
    requires c.id != m.channelId
    ensures Format(channels[c.id := c], users, m) == Format(channels, users, m)
  {
  }

  /** The sample chat manager, used end to end: register, render, and fail on an unknown user. */
  method ChatRoundTrip() returns (ok: Result<string, ChatError>, missing: Result<string, ChatError>)
    ensures ok == Success("[general] alice: hi")
    ensures missing == Failure(UnknownUser(2))
  {
    var manager := new ChatManager();
    manager.RegisterChannel(Channel(7, "general"));
    manager.RegisterUser(User(1, "alice"));
    ok := manager.MessageToString(Message(7, 1, "hi"));
    RegisteredMessageFormats(map[], map[], Channel(7, "general"), User(1, "alice"), "hi");
    assert "[" + "general" + "] " + "alice" + ": " + "hi" == "[general] alice: hi";
    missing := manager.MessageToString(Message(7, 2, "hi"));
  }
}
