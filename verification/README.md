# SignalR-Demo hubs: connection registry and fan-out, in Dafny

This project models the in-memory core behind the two SignalR hubs of the demo
API service:

- the **status hub** keeps a directory of `ConnectionInfo` records, one per
  connection id. It rewrites the directory on connect and disconnect, and it
  broadcasts a `StatusData` summary. The summary holds counts, distinct active
  usernames and a snapshot list of the records as they stand when it is built;
- the **chat hub** keeps a map from connection id to username. It registers
  users into the shared directory and sends one named event per call, to one of
  four audiences: all, a group, a group except the caller, or everyone but the
  caller.

The model is one state machine (`Server.State`). Every hub call is a pure
function that returns the new state and the events it sends. The state holds
the two static dictionaries of the source. It also holds, as explicit abstract
state, the transport facts the hubs depend on: the live connections of each
hub, and the chat hub's group membership.

Modules, leaf first:

| file | module | models |
|---|---|---|
| `wrappers.dfy` | `Wrappers` | `Option`, for C# nullable values |
| `seqs.dfy` | `Seqs` | `NoDuplicates` and `Distinct`, the LINQ `Distinct` operator |
| `directory.dfy` | `Directory` | `ConnectionInfo`, the `_connections` writes, `RegisterChatConnection`, `RemoveChatConnection` |
| `presence.dfy` | `Presence` | `StatusData` and `GetStatusData` |
| `events.dfy` | `Events` | audiences, event names, payloads |
| `server.dfy` | `Server` | the shared state and its invariants |
| `status_hub.dfy` | `StatusHub` | `OnConnectedAsync`, `OnDisconnectedAsync`, `GetLiveStatus` |
| `chat_hub.dfy` | `ChatHub` | every `ChatHub` method, and runs of chat-hub calls |
| `scenarios.dfy` | `Scenarios` | concrete runs of both hubs |

Modelling choices:

- **Enumeration order.** A .NET `Dictionary` enumerates in an order the code
  does not control. Every operation that reads `_connections.Values` takes an
  `order` argument, which must list each key exactly once (`IsEnumeration`).
  `Presence.EnumerateKeys` shows that such an order exists for every directory.
- **Clock.** `DateTime.Now` is a `Time` (an integer) passed as `now`.
- **HTTP context.** The status hub reads `Headers["User-Agent"].ToString()`.
  That is `""` when the header is missing and an HTTP context exists.
  `"Unknown"` is stored only when there is no HTTP context at all. The remote
  address also falls back to `"Unknown"` when the context has none.
- **Events.** Each `SendAsync` becomes an `Event` with four parts: the event
  name, the audience as the code addresses it, the set of connections that
  audience reaches at that moment, and structured arguments. Notice texts are
  represented by the values they are built from (the username, the connection
  id, the group name).
- **Transport timing.** A connecting connection is already among its hub's
  connections when `OnConnectedAsync` runs, so it receives the status broadcast
  its own connect triggers. A disconnecting connection has been aborted and
  receives nothing. The transport drops it from every group.

Consequences of the code that a reader might not expect:

- A status connect **overwrites** the record at its id. This includes a
  username set earlier by chat registration. The two role flags are not
  combined: the new record is a status monitor with no name and no chat flag.
  See `Directory.AddStatusMonitorDiscardsChatIdentity` and
  `StatusHub.StatusConnectBreaksChatSync`.
- `GetStatusData` classifies a record as a chat connection when
  `IsStatusMonitor` is false. It does not look at `IsChatConnection`.
  `ActiveUsers` is drawn from those records only. So a status monitor that
  registers a chat name still counts as a status connection, and its name is
  not an active user. See `Scenarios.StatusMonitorThatRegisters`.

## Model

| member | source | states |
|---|---|---|
| Directory.StatusRecord | Demo.ApiService/Hubs/StatusHub.cs:19-26 | A status record is keyed by its id, stamped with the connect time, flagged as a status monitor, not a chat connection, and has no username. The user agent is "Unknown" exactly when there is no HTTP context. The remote address is "Unknown" when there is no context or no address. Neither case fails. |
| Directory.AddStatusMonitor | Demo.ApiService/Hubs/StatusHub.cs:19-31 | After a status connect, `id` is present and holds a status-monitor record with no username and no chat flag, whatever was stored there before. Every other entry is unchanged, and records stay filed under their own ids. |
| Directory.Remove | Demo.ApiService/Hubs/StatusHub.cs:101-107 | Removal deletes exactly that key and leaves every other record as it was. Removing an absent id leaves the directory unchanged. Records stay filed under their own ids. |
| Directory.ChatRecord | Demo.ApiService/Hubs/StatusHub.cs:87-93 | Definition of the record made for an id the directory does not know: keyed by that id, stamped with the registration time, carrying the name, flagged as a chat connection and not a status monitor, with empty user agent and address. |
| Directory.RegisterChatConnection | Demo.ApiService/Hubs/StatusHub.cs:76-96 | On an existing id, the record gains the username and the chat flag and keeps its id, connect time, user agent, address and status flag. On an absent id, exactly one new chat-only record is added. No other entry changes, and records stay filed under their own ids. |
| Directory.RemoveUndoesAddStatusMonitor | Demo.ApiService/Hubs/StatusHub.cs:44 | Disconnecting an id that was absent before its status connect restores the directory exactly. |
| Directory.RemoveUndoesRegister | Demo.ApiService/Hubs/StatusHub.cs:105 | Removing an id that was absent before its chat registration restores the directory exactly. |
| Directory.RegisterIdempotent | Demo.ApiService/Hubs/StatusHub.cs:80-94 | Registering the same name twice gives the same directory as registering it once. |
| Directory.AddStatusMonitorDiscardsChatIdentity | Demo.ApiService/Hubs/StatusHub.cs:30 | A status connect after a chat registration on the same id clears the username and the chat flag. The write overwrites; it does not merge. |
| Seqs.Distinct | Demo.ApiService/Hubs/StatusHub.cs:66 | The result has no duplicates and has exactly the elements of its input. |
| Seqs.NoDuplicatesCardinality | Demo.ApiService/Hubs/StatusHub.cs:63 | A sequence without repeats is as long as its set of elements. So an enumeration of the keys is as long as the dictionary. |
| Presence.Values | Demo.ApiService/Hubs/StatusHub.cs:67 | The connections list has one entry per enumerated key: the record stored under that key. |
| Presence.WithMonitorFlag | Demo.ApiService/Hubs/StatusHub.cs:58-59 | Filtering on the status-monitor flag keeps exactly the records with that flag value, each as many times as it occurs, and drops every other record. |
| Presence.Usernames | Demo.ApiService/Hubs/StatusHub.cs:66 | A name is selected exactly when it is non-empty and some record carries it. |
| Presence.GetStatusData | Demo.ApiService/Hubs/StatusHub.cs:54-71 | For any enumeration order: total is the number of entries. Chat and status counts are the numbers of ids whose status flag is off and on, and they sum to the total. `Connections` lists every stored record once, in enumeration order. `ActiveUsers` has no duplicates and is exactly the set of non-empty names on records that are not status monitors. The directory itself is not changed. |
| Presence.FlagCount | Demo.ApiService/Hubs/StatusHub.cs:58-65 | Counting the records of one role along an enumeration gives the number of ids that have that role. |
| Presence.RolesPartition | Demo.ApiService/Hubs/StatusHub.cs:58-65 | Chat and status ids are disjoint and together cover the directory, so their counts add up to the total. |
| Presence.ActiveUsersExact | Demo.ApiService/Hubs/StatusHub.cs:66 | The names selected along an enumeration are exactly the non-empty usernames of records that are not status monitors. |
| Presence.ValuesExact | Demo.ApiService/Hubs/StatusHub.cs:67 | The records read along an enumeration are exactly the dictionary's values. |
| Presence.EnumerationCovers | Demo.ApiService/Hubs/StatusHub.cs:63-67 | An enumeration's elements are the keys, and it is exactly as long as the dictionary. |
| Presence.EnumerateKeys | Demo.ApiService/Hubs/StatusHub.cs:67 | Every directory can be enumerated, each key exactly once. |
| Events.Recipients | Demo.ApiService/Hubs/ChatHub.cs:57-129 | Definition of the four SignalR audiences the hub addresses (lines 59, 70, 99, 109, 118 and 128): All reaches every live connection, Group the group's members, GroupExcept the members minus the excluded id, Others every live connection minus the excluded id. The property that backs it is `Events.ExcludedNeverReached`. |
| Events.ExcludedNeverReached | Demo.ApiService/Hubs/ChatHub.cs:97-129 | The excluded connection never receives an Others or GroupExcept send. The exclusion removes that connection and nothing else. |
| Server.InitialValid | Demo.ApiService/Hubs/StatusHub.cs:11 | A fresh server has records filed under their own ids, groups made of live connections, and the chat map in agreement with the directory. |
| StatusHub.OnConnected | Demo.ApiService/Hubs/StatusHub.cs:17-35 | The directory gets the fresh status record and the connection joins the status hub. Nothing else changes. Exactly one StatusUpdated goes to all status connections, including the new one, and it carries a summary of the new directory. The invariant is kept. |
| StatusHub.OnDisconnected | Demo.ApiService/Hubs/StatusHub.cs:40-49 | The id's record is removed, or the directory is left as it was if the id was absent. Exactly one StatusUpdated always goes to the remaining status connections and carries a summary of the new directory. Nothing else changes, and the invariant is kept. |
| StatusHub.GetLiveStatus | Demo.ApiService/Hubs/StatusHub.cs:112-115 | The live query returns a summary of the current directory whose counts add up, and it changes no state. |
| StatusHub.StatusConnectBreaksChatSync | Demo.ApiService/Hubs/StatusHub.cs:28-31 | A status connect on a registered chat id leaves the chat map and the directory disagreeing about that id's name. |
| ChatHub.OnConnected | Demo.ApiService/Hubs/ChatHub.cs:16-19 | A chat connect changes neither the directory nor the chat map nor the groups, and sends nothing. |
| ChatHub.OnDisconnected | Demo.ApiService/Hubs/ChatHub.cs:24-36 | For a registered id, the id leaves both the chat map and the directory, and exactly one UserLeft goes to the remaining chat connections with the name it had. For an unregistered id, neither map changes and nothing is sent. Either way the connection leaves every group. |
| ChatHub.Named | Demo.ApiService/Hubs/ChatHub.cs:44 | The chat map gains the id with the new name, overwriting any earlier one, and every other id keeps its name. |
| ChatHub.Registered | Demo.ApiService/Hubs/ChatHub.cs:44-47 | Registration writes the name into both registries and changes nothing else; records stay filed under their own ids and groups stay made of live connections. |
| ChatHub.RegisterUser | Demo.ApiService/Hubs/ChatHub.cs:42-50 | The chat map maps the id to the new name, overwriting any earlier one, and leaves other ids alone. The directory gains the registration. Exactly one UserJoined with that name goes to every chat connection. The invariant is kept; the agreement of both registries is stated by `ChatHub.RegisterKeepsChatInSync`. |
| ChatHub.RegisterKeepsChatInSync | Demo.ApiService/Hubs/ChatHub.cs:44-47 | Because registration writes the same name into both registries, their agreement survives it. |
| ChatHub.SendMessage | Demo.ApiService/Hubs/ChatHub.cs:57-60 | No state changes. Exactly one ReceiveMessage goes to every chat connection, carrying the caller-supplied user, the message and the send time unchanged. |
| ChatHub.SendMessageToGroup | Demo.ApiService/Hubs/ChatHub.cs:68-71 | No state changes. Exactly one ReceiveMessage goes to exactly the group's members, with the caller-supplied user and message unchanged. |
| ChatHub.JoinGroup | Demo.ApiService/Hubs/ChatHub.cs:77-81 | The caller is added to that group only. The UserJoinedGroup notice goes to the group's members after the addition, so the caller receives it. |
| ChatHub.LeaveGroup | Demo.ApiService/Hubs/ChatHub.cs:87-91 | The caller is removed from that group only. The UserLeftGroup notice goes to the remaining members, so the caller does not receive it. |
| ChatHub.SendTypingIndicator | Demo.ApiService/Hubs/ChatHub.cs:97-100 | No state changes. UserTyping goes to every chat connection except the caller. |
| ChatHub.SendTypingIndicatorToGroup | Demo.ApiService/Hubs/ChatHub.cs:107-110 | No state changes. UserTyping goes to the group's members except the caller, even when the caller is a member. |
| ChatHub.SendStoppedTypingIndicator | Demo.ApiService/Hubs/ChatHub.cs:116-119 | No state changes. UserStoppedTyping goes to every chat connection except the caller. |
| ChatHub.SendStoppedTypingIndicatorToGroup | Demo.ApiService/Hubs/ChatHub.cs:126-129 | No state changes. UserStoppedTyping goes to the group's members except the caller. |
| ChatHub.WithoutMember | Demo.ApiService/Hubs/ChatHub.cs:24-36 | When a chat connection closes, it leaves every group, other members stay, and no group is left empty. |
| ChatHub.StepKeepsChatInSync | Demo.ApiService/Hubs/ChatHub.cs:24-50 | Every chat-hub call keeps every registered user in the directory under the same name, flagged as a chat connection. |
| ChatHub.StepKeepsValid | Demo.ApiService/Hubs/ChatHub.cs:77-91 | Every chat-hub call keeps records filed under their own ids and groups made of live connections, given that only live connections join groups. |
| ChatHub.RunKeepsChatInSync | Demo.ApiService/Hubs/ChatHub.cs:26-47 | Any sequence of chat-hub calls keeps the chat map and the directory in agreement. |
| ChatHub.ChatOnlyRunsStayInSync | Demo.ApiService/Hubs/ChatHub.cs:11 | If only the chat hub is called from a fresh start, every id in the chat map has a directory record with the same username and the chat flag. |
| Scenarios.StatusMonitorThatRegisters | Demo.ApiService/Hubs/StatusHub.cs:58-66 | A status connection that registers "bob" gains the name and the chat flag. It is still counted as one status connection and zero chat connections, and there are no active users. |
| Scenarios.ChatRegistrationIsActive | Demo.ApiService/Hubs/StatusHub.cs:85-94 | A chat-only registration counts as one chat connection, and its name is the only active user. |
| Scenarios.GroupMessageReachesMembersOnly | Demo.ApiService/Hubs/ChatHub.cs:68-81 | After A and B join "g1", a group message reaches exactly A and B, and not C. |
| Scenarios.RegisteredUserLeaves | Demo.ApiService/Hubs/ChatHub.cs:26-34 | When registered "bob" disconnects, it leaves both registries, and exactly one UserLeft naming "bob" goes to the remaining connection. |
| Scenarios.UnknownStatusDisconnect | Demo.ApiService/Hubs/StatusHub.cs:40-49 | A status disconnect of an unknown id leaves the directory unchanged and still broadcasts. |

## Left out

- Locking (`_connectionsLock`), `async`/`await` and the unsynchronised static `_userConnections`: each hub call is one atomic step.
- Wall-clock behaviour: `DateTime.Now` is a parameter, and `ConnectionDuration` (computed on read from the clock) is not modelled.
- Delivery of messages by SignalR, and the exact Danish notice texts. Events carry the values the texts are built from.
- The rendering of `StringValues` and `IPAddress` to strings: the HTTP context supplies the already-rendered header and address.
- A null string argument sent by a client. Every client-supplied string (the username, `user`, `message` and the group name) is a non-null `string` in the model, which cannot represent null. In the code a null username is stored as is, and a null `user` or `message` is simply sent. A null group name makes SignalR's `AddToGroupAsync`, `RemoveFromGroupAsync`, `Group` and `GroupExcept` throw `ArgumentNullException` (Demo.ApiService/Hubs/ChatHub.cs:70, 79-80, 89-90, 109, 128): the call then fails, no group changes and nothing is sent. The model has no such failing call.
- `ConnectionInfo` is a mutable class in the code: `RegisterChatConnection` changes an existing record in place (Demo.ApiService/Hubs/StatusHub.cs:82-83), and a summary's list shares those objects with the directory. The model treats records as immutable values and a summary as a snapshot. That agrees with the code only under the model's assumption that each hub call is one atomic step; a registration running while a summary is being serialized could change what the summary reports.
- `GetLiveStatus` wraps the summary in a completed task. The model has no tasks, so it returns the summary itself.
- The `base.OnConnectedAsync` and `base.OnDisconnectedAsync` calls, which do nothing in this application.
- Presence.GetStatusData: the contract does not state the order of `ActiveUsers`. The body keeps the first occurrence of each name along the enumeration, as LINQ's `Distinct` does.
- ChatHub.StepKeepsValid: group membership stays within live connections only if the transport lets nothing but live connections call `JoinGroup`. That is taken as a hypothesis, not derived.
- Demo.ApiService/Program.cs (hosting, CORS, OpenAPI and the random weather endpoint), Demo.Web/WeatherApiClient.cs (an HTTP client), Demo.Web/Models/StatusData.cs (a client-side copy of the types modelled here) and Demo.AppHost/AppHost.cs (orchestration). None of them holds logic of this core.
