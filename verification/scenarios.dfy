/** Concrete runs of the two hubs, following the code's semantics. */
module Scenarios {
  import opened Wrappers
  import opened Events
  import opened Server
  import StatusHub
  import ChatHub

  /** A status connection that then registers a chat name gains the name and
      the chat flag, yet is still counted as a status connection and its name
      is not an active user: the summary classifies by the status-monitor flag. */
  lemma StatusMonitorThatRegisters()
    ensures var s1 := StatusHub.OnConnected(Initial, "A", None, 0, ["A"]).0;
            var s2 := ChatHub.RegisterUser(s1, "A", "bob", 1).0;
            var r := StatusHub.GetLiveStatus(s2, ["A"], 2);
            && s2.directory["A"].username == Some("bob")
            && s2.directory["A"].isChatConnection
            && r.totalConnections == 1 && r.statusConnections == 1 && r.chatConnections == 0
            && r.activeUsers == []
  {
  }

  /** A chat-only registration is counted as a chat connection and its name is an active user. */
  lemma ChatRegistrationIsActive()
    ensures var s := ChatHub.RegisterUser(ChatHub.OnConnected(Initial, "B").0, "B", "alice", 0).0;
            var r := StatusHub.GetLiveStatus(s, ["B"], 1);
            && r.totalConnections == 1 && r.chatConnections == 1 && r.statusConnections == 0
            && (forall u :: u in r.activeUsers <==> u == "alice")
  {
  }

  /** Two members of "g1" receive a group message; a third connection outside the group does not. */
  lemma GroupMessageReachesMembersOnly()
    ensures var s0 := State(map[], map[], {"A", "B", "C"}, {}, map[]);
            var s1 := ChatHub.JoinGroup(s0, "A", "g1").0;
            var s2 := ChatHub.JoinGroup(s1, "B", "g1").0;
            var e := ChatHub.SendMessageToGroup(s2, "g1", "bob", "hi", 0).1;
            && e[0].recipients == {"A", "B"}
            && "C" !in e[0].recipients
  {
  }

  /** A registered chat connection that disconnects leaves the directory, and
      the remaining chat connections hear `UserLeft` naming it. */
  lemma RegisteredUserLeaves()
    ensures var s0 := ChatHub.OnConnected(ChatHub.OnConnected(Initial, "A").0, "B").0;
            var s1 := ChatHub.RegisterUser(s0, "A", "bob", 0).0;
            var r := ChatHub.OnDisconnected(s1, "A");
            && "A" !in r.0.directory
            && "A" !in r.0.userConnections
            && r.1 == [Event(UserLeft, All, {"B"}, UserNotice(System, "bob"))]
  {
  }

  /** Removing an id nobody registered leaves the directory as it was, and the status disconnect still broadcasts. */
  lemma UnknownStatusDisconnect()
    ensures var r := StatusHub.OnDisconnected(Initial, "X", 0, []);
            && r.0.directory == Initial.directory
            && |r.1| == 1 && r.1[0].name == StatusUpdated
  {
  }
}
