/** What a hub call emits: one named event sent to one audience. An audience is
    resolved against the hub's live connections and its group membership. */
module Events {
  import opened Directory
  import opened Presence

  /** Group name to member connection ids, as the transport keeps it for the chat hub. */
  type Groups = map<string, set<Id>>

  /** The members of a group; a group nobody has joined has none. */
  function Members(groups: Groups, name: string): set<Id> {
    if name in groups then groups[name] else {}
  }

  /** The four audiences the hubs address: `Clients.All`, `Clients.Group`,
      `Clients.GroupExcept(name, excluded)` and `Clients.Others` (all but the caller). */
  datatype Audience =
    | All
    | Group(name: string)
    | GroupExcept(name: string, excluded: Id)
    | Others(excluded: Id)

  /** The connections an audience reaches, given the hub's live connections and its groups. */
  function Recipients(audience: Audience, clients: set<Id>, groups: Groups): (r: set<Id>)
    ensures audience.All? ==> r == clients
    ensures audience.Others? ==> r == clients - {audience.excluded}
    ensures audience.Group? ==> r == Members(groups, audience.name)
    ensures audience.GroupExcept? ==> r == Members(groups, audience.name) - {audience.excluded}
  {
    match audience
    case All => clients
    case Group(name) => Members(groups, name)
    case GroupExcept(name, excluded) => Members(groups, name) - {excluded}
    case Others(excluded) => clients - {excluded}
  }

  /** An excluded connection never hears the event, and the exclusion takes nothing else away. */
  lemma ExcludedNeverReached(audience: Audience, clients: set<Id>, groups: Groups)
    requires audience.GroupExcept? || audience.Others?
    ensures audience.excluded !in Recipients(audience, clients, groups)
    ensures audience.GroupExcept? ==>
      Recipients(audience, clients, groups) + ({audience.excluded} * Members(groups, audience.name))
        == Recipients(Group(audience.name), clients, groups)
    ensures audience.Others? ==>
      Recipients(audience, clients, groups) + ({audience.excluded} * clients) == Recipients(All, clients, groups)
  {
  }

  /** The event names the hubs send. */
  datatype EventName =
    | UserJoined
    | UserLeft
    | ReceiveMessage
    | UserJoinedGroup
    | UserLeftGroup
    | UserTyping
    | UserStoppedTyping
    | StatusUpdated

  /** The sender label of the hubs' own notices. */
  const System: string := "System"

  /** Event arguments. Notices carry the values their text is built from rather than the text. */
  datatype Payload =
    | UserNotice(sender: string, username: string)
    | GroupNotice(sender: string, connectionId: Id, groupName: string)
    | ChatMessage(user: string, message: string, sentAt: Time)
    | Typing(user: string)
    | Status(data: StatusData)

  /** One `SendAsync`: the name, the audience as the code addresses it, the
      connections it reaches at the moment of sending, and the arguments. */
  datatype Event = Event(name: EventName, audience: Audience, recipients: set<Id>, payload: Payload)

  /** Sends `name` with `payload` to `audience`, resolved against `clients` and `groups`. */
  function Send(name: EventName, audience: Audience, clients: set<Id>, groups: Groups, payload: Payload): (e: Event)
    ensures e.name == name && e.audience == audience && e.payload == payload
    ensures e.recipients == Recipients(audience, clients, groups)
  {
    Event(name, audience, Recipients(audience, clients, groups), payload)
  }
}
