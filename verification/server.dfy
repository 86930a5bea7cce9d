/** The state both hubs share: the two static dictionaries of the source plus
    the part of the transport the hubs observe (who is connected to which hub,
    and the chat hub's groups). */
module Server {
  import opened Wrappers
  import opened Directory
  import opened Events

  datatype State = State(
    directory: Directory,             // StatusHub._connections
    userConnections: map<Id, string>, // ChatHub._userConnections
    chatClients: set<Id>,             // live connections of the chat hub
    statusClients: set<Id>,           // live connections of the status hub
    groups: Groups)                   // chat hub groups

  /** A freshly started server. */
  const Initial: State := State(map[], map[], {}, {}, map[])

  /** Every group member is a live chat connection. */
  ghost predicate GroupsLive(s: State) {
    forall g | g in s.groups :: s.groups[g] <= s.chatClients
  }

  /** The invariant every call keeps: records filed under their own id, groups made of live connections. */
  ghost predicate Valid(s: State) {
    WellKeyed(s.directory) && GroupsLive(s)
  }

  /** Every registered chat user has a directory record with the same name, marked as a chat connection. */
  ghost predicate ChatInSync(s: State) {
    forall id | id in s.userConnections ::
      && id in s.directory
      && s.directory[id].username == Some(s.userConnections[id])
      && s.directory[id].isChatConnection
  }

  /** A fresh server satisfies both invariants. */
  lemma InitialValid()
    ensures Valid(Initial) && ChatInSync(Initial)
  {
  }
}
