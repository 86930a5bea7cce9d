/** The status hub's lifecycle: connect and disconnect rewrite the directory and
    broadcast a fresh summary to every status connection; the live-status query
    reads it. Each call that broadcasts takes the dictionary's enumeration
    order at the moment `GetStatusData` reads it. */
module StatusHub {
  import opened Wrappers
  import opened Directory
  import opened Presence
  import opened Events
  import opened Server

  /** `events` is the single `StatusUpdated` broadcast to all of `clients`,
      carrying a summary of `d` taken at `now`. */
  ghost predicate IsStatusBroadcast(events: seq<Event>, clients: set<Id>, d: Directory, now: Time) {
    && |events| == 1
    && events[0].name == StatusUpdated
    && events[0].audience == All
    && events[0].recipients == clients
    && events[0].payload.Status?
    && Summarizes(events[0].payload.data, d, now)
  }

  /** `OnConnectedAsync`. The transport has already added `id` to the hub's
      connections, so the new connection receives the broadcast too. */
  function OnConnected(s: State, id: Id, http: Option<HttpContext>, now: Time, order: seq<Id>): (r: (State, seq<Event>))
    requires IsEnumeration(order, s.directory.Keys + {id})
    ensures r.0.directory == AddStatusMonitor(s.directory, id, http, now)
    ensures r.0.directory[id] == StatusRecord(id, http, now)
    ensures r.0.statusClients == s.statusClients + {id}
    ensures r.0.userConnections == s.userConnections && r.0.chatClients == s.chatClients && r.0.groups == s.groups
    ensures IsStatusBroadcast(r.1, r.0.statusClients, r.0.directory, now)
    ensures id in r.1[0].recipients
    ensures Valid(s) ==> Valid(r.0)
  {
    var s' := s.(directory := AddStatusMonitor(s.directory, id, http, now), statusClients := s.statusClients + {id});
    (s', [Send(StatusUpdated, All, s'.statusClients, map[], Status(GetStatusData(s'.directory, order, now)))])
  }

  /** `OnDisconnectedAsync`. The closing connection is no longer reachable; the
      broadcast goes out whether or not `id` had a record. */
  function OnDisconnected(s: State, id: Id, now: Time, order: seq<Id>): (r: (State, seq<Event>))
    requires IsEnumeration(order, s.directory.Keys - {id})
    ensures r.0.directory == Remove(s.directory, id)
    ensures id !in r.0.directory
    ensures r.0.statusClients == s.statusClients - {id}
    ensures r.0.userConnections == s.userConnections && r.0.chatClients == s.chatClients && r.0.groups == s.groups
    ensures IsStatusBroadcast(r.1, r.0.statusClients, r.0.directory, now)
    ensures id !in s.directory ==> r.0.directory == s.directory
    ensures Valid(s) ==> Valid(r.0)
  {
    var s' := s.(directory := Remove(s.directory, id), statusClients := s.statusClients - {id});
    (s', [Send(StatusUpdated, All, s'.statusClients, map[], Status(GetStatusData(s'.directory, order, now)))])
  }

  /** `GetLiveStatus`: the current summary, read without changing anything. */
  function GetLiveStatus(s: State, order: seq<Id>, now: Time): (r: StatusData)
    requires IsEnumeration(order, s.directory.Keys)
    ensures Summarizes(r, s.directory, now)
    ensures r.chatConnections + r.statusConnections == r.totalConnections
  {
    GetStatusData(s.directory, order, now)
  }

  /** A status connect on an id that a chat registration already filed drops
      the chat identity, so the chat map and the directory disagree afterwards. */
  lemma StatusConnectBreaksChatSync(s: State, id: Id, http: Option<HttpContext>, now: Time, order: seq<Id>)
    requires id in s.userConnections
    requires IsEnumeration(order, s.directory.Keys + {id})
    ensures !ChatInSync(OnConnected(s, id, http, now, order).0)
  {
  }
}
