/** The chat hub: user registration, disconnect bookkeeping, groups, and the
    fan-out rules of its message and typing calls. `id` is always the calling
    connection. */
module ChatHub {
  import opened Wrappers
  import opened Directory
  import opened Events
  import opened Server

  /** `OnConnectedAsync`: the transport adds the connection; the hub records nothing. */
  function OnConnected(s: State, id: Id): (r: (State, seq<Event>))
    ensures r.0.directory == s.directory && r.0.userConnections == s.userConnections
    ensures r.0.groups == s.groups && r.0.statusClients == s.statusClients
    ensures r.0.chatClients == s.chatClients + {id}
    ensures r.1 == []
    ensures Valid(s) ==> Valid(r.0)
    ensures ChatInSync(s) ==> ChatInSync(r.0)
  {
    (s.(chatClients := s.chatClients + {id}), [])
  }

  /** The transport's cleanup of a closed connection: it leaves every group, and empty groups disappear. */
  function WithoutMember(groups: Groups, id: Id): (r: Groups)
    ensures forall g :: Members(r, g) == Members(groups, g) - {id}
    ensures forall g | g in r :: r[g] != {}
  {
    map g | g in groups && groups[g] - {id} != {} :: groups[g] - {id}
  }

  /** `OnDisconnectedAsync`. A registered connection is dropped from the chat map
      and the directory, and everyone still connected hears `UserLeft` with the
      name it had; an unregistered one changes neither map and sends nothing. */
  function OnDisconnected(s: State, id: Id): (r: (State, seq<Event>))
    ensures r.0.chatClients == s.chatClients - {id} && r.0.statusClients == s.statusClients
    ensures forall g :: Members(r.0.groups, g) == Members(s.groups, g) - {id}
    ensures id !in r.0.userConnections
    ensures id in s.userConnections ==>
      && r.0.userConnections == s.userConnections - {id}
      && r.0.directory == Remove(s.directory, id)
      && |r.1| == 1
      && r.1[0].name == UserLeft && r.1[0].audience == All
      && r.1[0].recipients == r.0.chatClients
      && r.1[0].payload == UserNotice(System, s.userConnections[id])
    ensures id !in s.userConnections ==>
      r.0.userConnections == s.userConnections && r.0.directory == s.directory && r.1 == []
    ensures Valid(s) ==> Valid(r.0)
    ensures ChatInSync(s) ==> ChatInSync(r.0)
  {
    var clients := s.chatClients - {id};
    var groups := WithoutMember(s.groups, id);
    if id in s.userConnections then
      var username := s.userConnections[id];
      var s' := s.(directory := Remove(s.directory, id), userConnections := s.userConnections - {id},
                   chatClients := clients, groups := groups);
      (s', [Send(UserLeft, All, clients, groups, UserNotice(System, username))])
    else
      (s.(chatClients := clients, groups := groups), [])
  }

  /** `_userConnections[id] = username`: the id is mapped to the name, overwriting any earlier one. */
  function Named(users: map<Id, string>, id: Id, username: string): (r: map<Id, string>)
    ensures r.Keys == users.Keys + {id}
    ensures r[id] == username
    ensures forall k | k in users && k != id :: r[k] == users[k]
  {
    users[id := username]
  }

  /** The state after `RegisterUser`: both registries learn the name, nothing else changes. */
  function Registered(s: State, id: Id, username: string, now: Time): (s': State)
    ensures s'.directory == RegisterChatConnection(s.directory, id, username, now)
    ensures s'.userConnections == Named(s.userConnections, id, username)
    ensures s'.chatClients == s.chatClients && s'.statusClients == s.statusClients && s'.groups == s.groups
    ensures Valid(s) ==> Valid(s')
  {
    var d := RegisterChatConnection(s.directory, id, username, now);
    assert WellKeyed(s.directory) ==> WellKeyed(d);
    var s' := State(d, Named(s.userConnections, id, username), s.chatClients, s.statusClients, s.groups);
    assert GroupsLive(s') == GroupsLive(s);
    s'
  }

  /** `RegisterUser`: the name overwrites any earlier one for this connection,
      the directory learns it, and every chat connection hears `UserJoined`. */
  function RegisterUser(s: State, id: Id, username: string, now: Time): (r: (State, seq<Event>))
    ensures r.0.userConnections.Keys == s.userConnections.Keys + {id}
    ensures r.0.userConnections[id] == username
    ensures forall k | k in s.userConnections && k != id :: r.0.userConnections[k] == s.userConnections[k]
    ensures r.0.directory == RegisterChatConnection(s.directory, id, username, now)
    ensures r.0.directory[id].username == Some(username) && r.0.directory[id].isChatConnection
    ensures r.0.chatClients == s.chatClients && r.0.statusClients == s.statusClients && r.0.groups == s.groups
    ensures |r.1| == 1
    ensures r.1[0].name == UserJoined && r.1[0].audience == All && r.1[0].recipients == s.chatClients
    ensures r.1[0].payload == UserNotice(System, username)
    ensures Valid(s) ==> Valid(r.0)
  {
    (Registered(s, id, username, now), [Send(UserJoined, All, s.chatClients, s.groups, UserNotice(System, username))])
  }

  /** The registration writes the same name into both registries, so agreement survives it. */
  lemma RegisterKeepsChatInSync(s: State, id: Id, username: string, now: Time)
    requires ChatInSync(s)
    ensures ChatInSync(RegisterUser(s, id, username, now).0)
  {
  }

  /** `SendMessage`: the caller-supplied `user` goes out unchecked to every chat connection. */
  function SendMessage(s: State, user: string, message: string, now: Time): (r: (State, seq<Event>))
    ensures r.0 == s
    ensures |r.1| == 1
    ensures r.1[0].name == ReceiveMessage && r.1[0].audience == All && r.1[0].recipients == s.chatClients
    ensures r.1[0].payload == ChatMessage(user, message, now)
  {
    (s, [Send(ReceiveMessage, All, s.chatClients, s.groups, ChatMessage(user, message, now))])
  }

  /** `SendMessageToGroup`: the same message, to exactly the group's members. */
  function SendMessageToGroup(s: State, group: string, user: string, message: string, now: Time): (r: (State, seq<Event>))
    ensures r.0 == s
    ensures |r.1| == 1
    ensures r.1[0].name == ReceiveMessage && r.1[0].audience == Group(group)
    ensures r.1[0].recipients == Members(s.groups, group)
    ensures r.1[0].payload == ChatMessage(user, message, now)
  {
    (s, [Send(ReceiveMessage, Group(group), s.chatClients, s.groups, ChatMessage(user, message, now))])
  }

  /** `JoinGroup`: the caller is added first, so the notice reaches it too. */
  function JoinGroup(s: State, id: Id, group: string): (r: (State, seq<Event>))
    ensures Members(r.0.groups, group) == Members(s.groups, group) + {id}
    ensures forall g | g != group :: Members(r.0.groups, g) == Members(s.groups, g)
    ensures r.0.directory == s.directory && r.0.userConnections == s.userConnections
    ensures r.0.chatClients == s.chatClients && r.0.statusClients == s.statusClients
    ensures |r.1| == 1
    ensures r.1[0].name == UserJoinedGroup && r.1[0].audience == Group(group)
    ensures r.1[0].recipients == Members(s.groups, group) + {id}
    ensures id in r.1[0].recipients
    ensures r.1[0].payload == GroupNotice(System, id, group)
    ensures Valid(s) && id in s.chatClients ==> Valid(r.0)
    ensures ChatInSync(s) ==> ChatInSync(r.0)
  {
    var groups := s.groups[group := Members(s.groups, group) + {id}];
    (s.(groups := groups), [Send(UserJoinedGroup, Group(group), s.chatClients, groups, GroupNotice(System, id, group))])
  }

  /** `LeaveGroup`: the caller is removed first, so the notice reaches the remaining members only. */
  function LeaveGroup(s: State, id: Id, group: string): (r: (State, seq<Event>))
    ensures Members(r.0.groups, group) == Members(s.groups, group) - {id}
    ensures forall g | g != group :: Members(r.0.groups, g) == Members(s.groups, g)
    ensures r.0.directory == s.directory && r.0.userConnections == s.userConnections
    ensures r.0.chatClients == s.chatClients && r.0.statusClients == s.statusClients
    ensures |r.1| == 1
    ensures r.1[0].name == UserLeftGroup && r.1[0].audience == Group(group)
    ensures r.1[0].recipients == Members(s.groups, group) - {id}
    ensures id !in r.1[0].recipients
    ensures r.1[0].payload == GroupNotice(System, id, group)
    ensures Valid(s) ==> Valid(r.0)
    ensures ChatInSync(s) ==> ChatInSync(r.0)
  {
    var remaining := Members(s.groups, group) - {id};
    var groups := if remaining == {} then s.groups - {group} else s.groups[group := remaining];
    (s.(groups := groups), [Send(UserLeftGroup, Group(group), s.chatClients, groups, GroupNotice(System, id, group))])
  }

  /** `SendTypingIndicator`: every other chat connection hears it; the caller does not. */
  function SendTypingIndicator(s: State, id: Id, user: string): (r: (State, seq<Event>))
    ensures r.0 == s
    ensures |r.1| == 1
    ensures r.1[0].name == UserTyping && r.1[0].audience == Others(id)
    ensures r.1[0].recipients == s.chatClients - {id}
    ensures id !in r.1[0].recipients
    ensures r.1[0].payload == Typing(user)
  {
    (s, [Send(UserTyping, Others(id), s.chatClients, s.groups, Typing(user))])
  }

  /** `SendTypingIndicatorToGroup`: the group's members except the caller, even when the caller is a member. */
  function SendTypingIndicatorToGroup(s: State, id: Id, group: string, user: string): (r: (State, seq<Event>))
    ensures r.0 == s
    ensures |r.1| == 1
    ensures r.1[0].name == UserTyping && r.1[0].audience == GroupExcept(group, id)
    ensures r.1[0].recipients == Members(s.groups, group) - {id}
    ensures id !in r.1[0].recipients
    ensures r.1[0].payload == Typing(user)
  {
    (s, [Send(UserTyping, GroupExcept(group, id), s.chatClients, s.groups, Typing(user))])
  }

  /** `SendStoppedTypingIndicator`: every other chat connection hears it; the caller does not. */
  function SendStoppedTypingIndicator(s: State, id: Id, user: string): (r: (State, seq<Event>))
    ensures r.0 == s
    ensures |r.1| == 1
    ensures r.1[0].name == UserStoppedTyping && r.1[0].audience == Others(id)
    ensures r.1[0].recipients == s.chatClients - {id}
    ensures id !in r.1[0].recipients
    ensures r.1[0].payload == Typing(user)
  {
    (s, [Send(UserStoppedTyping, Others(id), s.chatClients, s.groups, Typing(user))])
  }

  /** `SendStoppedTypingIndicatorToGroup`: the group's members except the caller. */
  function SendStoppedTypingIndicatorToGroup(s: State, id: Id, group: string, user: string): (r: (State, seq<Event>))
    ensures r.0 == s
    ensures |r.1| == 1
    ensures r.1[0].name == UserStoppedTyping && r.1[0].audience == GroupExcept(group, id)
    ensures r.1[0].recipients == Members(s.groups, group) - {id}
    ensures id !in r.1[0].recipients
    ensures r.1[0].payload == Typing(user)
  {
    (s, [Send(UserStoppedTyping, GroupExcept(group, id), s.chatClients, s.groups, Typing(user))])
  }

  /** One call into the chat hub, by connection `id`. */
  datatype Call =
    | Connect(id: Id)
    | Disconnect(id: Id)
    | Register(id: Id, username: string, now: Time)
    | Message(id: Id, user: string, message: string, now: Time)
    | GroupMessage(id: Id, group: string, user: string, message: string, now: Time)
    | Join(id: Id, group: string)
    | Leave(id: Id, group: string)
    | StartTyping(id: Id, user: string)
    | StartTypingInGroup(id: Id, group: string, user: string)
    | StopTyping(id: Id, user: string)
    | StopTypingInGroup(id: Id, group: string, user: string)

  /** Dispatches one call to the hub method it names. */
  function Step(s: State, c: Call): (State, seq<Event>) {
    match c
    case Connect(id) => OnConnected(s, id)
    case Disconnect(id) => OnDisconnected(s, id)
    case Register(id, username, now) => RegisterUser(s, id, username, now)
    case Message(_, user, message, now) => SendMessage(s, user, message, now)
    case GroupMessage(_, group, user, message, now) => SendMessageToGroup(s, group, user, message, now)
    case Join(id, group) => JoinGroup(s, id, group)
    case Leave(id, group) => LeaveGroup(s, id, group)
    case StartTyping(id, user) => SendTypingIndicator(s, id, user)
    case StartTypingInGroup(id, group, user) => SendTypingIndicatorToGroup(s, id, group, user)
    case StopTyping(id, user) => SendStoppedTypingIndicator(s, id, user)
    case StopTypingInGroup(id, group, user) => SendStoppedTypingIndicatorToGroup(s, id, group, user)
  }

  /** The state after running `calls` in order, starting from `s`. */
  function Run(s: State, calls: seq<Call>): State
    decreases |calls|
  {
    if |calls| == 0 then s else Run(Step(s, calls[0]).0, calls[1..])
  }

  /** Every chat-hub call keeps the chat map and the directory in agreement. */
  lemma StepKeepsChatInSync(s: State, c: Call)
    requires ChatInSync(s)
    ensures ChatInSync(Step(s, c).0)
  {
  }

  /** Every chat-hub call keeps the state valid, given that the transport only
      lets live connections join groups. */
  lemma StepKeepsValid(s: State, c: Call)
    requires Valid(s)
    requires c.Join? ==> c.id in s.chatClients
    ensures Valid(Step(s, c).0)
  {
  }

  /** As long as only the chat hub is called, every registered user has a
      directory record with the same name, marked as a chat connection. */
  lemma {:induction false} RunKeepsChatInSync(s: State, calls: seq<Call>)
    requires ChatInSync(s)
    ensures ChatInSync(Run(s, calls))
    decreases |calls|
  {
    if |calls| > 0 {
      StepKeepsChatInSync(s, calls[0]);
      RunKeepsChatInSync(Step(s, calls[0]).0, calls[1..]);
    }
  }

  /** From a fresh server, any sequence of chat-hub calls leaves the two registries in agreement. */
  lemma ChatOnlyRunsStayInSync(calls: seq<Call>)
    ensures ChatInSync(Run(Initial, calls))
  {
    InitialValid();
    RunKeepsChatInSync(Initial, calls);
  }
}
