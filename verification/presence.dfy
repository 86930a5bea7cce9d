/** `GetStatusData`: the presence summary computed from the directory. The
    records are read in the dictionary's enumeration order, which the model
    leaves open: every operation that reads it takes an `order` that must
    enumerate the directory's keys. */
module Presence {
  import opened Wrappers
  import opened Seqs
  import opened Directory

  /** The summary the status hub broadcasts and answers queries with. */
  datatype StatusData = StatusData(
    totalConnections: int,
    chatConnections: int,
    statusConnections: int,
    activeUsers: seq<string>,
    connections: seq<ConnectionInfo>,
    lastUpdated: Time)

  /** `order` lists every key of the set exactly once: a possible enumeration order of the dictionary. */
  predicate IsEnumeration(order: seq<Id>, keys: set<Id>) {
    && NoDuplicates(order)
    && (forall i | 0 <= i < |order| :: order[i] in keys)
    && (forall k | k in keys :: k in order)
  }

  /** `_connections.Values`, read in the enumeration order `order`. */
  function Values(d: Directory, order: seq<Id>): (r: seq<ConnectionInfo>)
    requires forall i | 0 <= i < |order| :: order[i] in d
    ensures |r| == |order|
    ensures forall i | 0 <= i < |order| :: r[i] == d[order[i]]
  {
    if |order| == 0 then [] else [d[order[0]]] + Values(d, order[1..])
  }

  /** The records whose status-monitor flag is `monitors`, in their original order:
      each such record is kept as often as it occurs, every other record is dropped. */
  function WithMonitorFlag(rs: seq<ConnectionInfo>, monitors: bool): (r: seq<ConnectionInfo>)
    ensures |r| <= |rs|
    ensures forall c :: c in r <==> c in rs && c.isStatusMonitor == monitors
    ensures forall c :: multiset(r)[c] == (if c.isStatusMonitor == monitors then multiset(rs)[c] else 0)
  {
    if |rs| == 0 then []
    else
      assert rs == [rs[0]] + rs[1..];
      if rs[0].isStatusMonitor == monitors then [rs[0]] + WithMonitorFlag(rs[1..], monitors)
      else WithMonitorFlag(rs[1..], monitors)
  }

  /** The non-empty usernames of the records, in record order; records without a name contribute nothing. */
  function Usernames(rs: seq<ConnectionInfo>): (r: seq<string>)
    ensures forall u :: u in r <==> u != "" && exists c :: c in rs && c.username == Some(u)
  {
    if |rs| == 0 then []
    else
      var rest := Usernames(rs[1..]);
      assert forall c :: c in rs[1..] ==> c in rs;
      if rs[0].username.Some? && rs[0].username.value != "" then [rs[0].username.value] + rest else rest
  }

  /** The ids of the records whose status-monitor flag is `monitors`, among the keys `ks`. */
  ghost function IdsWithFlag(d: Directory, ks: set<Id>, monitors: bool): set<Id> {
    set k | k in ks && k in d && d[k].isStatusMonitor == monitors
  }

  /** Chat connections are the records NOT flagged as status monitors, whatever their chat flag says. */
  ghost function ChatIds(d: Directory): set<Id> {
    IdsWithFlag(d, d.Keys, false)
  }

  ghost function StatusIds(d: Directory): set<Id> {
    IdsWithFlag(d, d.Keys, true)
  }

  /** The distinct non-empty usernames of the records not flagged as status monitors. */
  ghost function ActiveUserSet(d: Directory): set<string> {
    set k | k in d && !d[k].isStatusMonitor && d[k].username.Some? && d[k].username.value != ""
      :: d[k].username.value
  }

  /** What any summary of the directory `d` taken at `now` must satisfy,
      independent of the enumeration order. */
  ghost predicate Summarizes(r: StatusData, d: Directory, now: Time) {
    && r.totalConnections == |d|
    && r.chatConnections == |ChatIds(d)|
    && r.statusConnections == |StatusIds(d)|
    && |r.connections| == |d|
    && (forall c :: c in r.connections <==> c in d.Values)
    && NoDuplicates(r.activeUsers)
    && (forall u :: u in r.activeUsers <==> u in ActiveUserSet(d))
    && r.lastUpdated == now
  }

  /** `GetStatusData`, reading the dictionary in the order `order`. */
  function GetStatusData(d: Directory, order: seq<Id>, now: Time): (r: StatusData)
    requires IsEnumeration(order, d.Keys)
    ensures Summarizes(r, d, now)
    ensures r.chatConnections + r.statusConnections == r.totalConnections
    ensures |r.connections| == |order|
    ensures forall i | 0 <= i < |order| :: r.connections[i] == d[order[i]]
  {
    var rs := Values(d, order);
    var chat := WithMonitorFlag(rs, false);
    var status := WithMonitorFlag(rs, true);
    var r := StatusData(|d|, |chat|, |status|, Distinct(Usernames(chat)), rs, now);
    SummaryProperties(d, order, now, r);
    r
  }

  /** The pieces of `Summarizes` for the value `GetStatusData` builds. */
  lemma SummaryProperties(d: Directory, order: seq<Id>, now: Time, r: StatusData)
    requires IsEnumeration(order, d.Keys)
    requires r.connections == Values(d, order)
    requires r.totalConnections == |d|
    requires r.chatConnections == |WithMonitorFlag(r.connections, false)|
    requires r.statusConnections == |WithMonitorFlag(r.connections, true)|
    requires r.activeUsers == Distinct(Usernames(WithMonitorFlag(r.connections, false)))
    requires r.lastUpdated == now
    ensures Summarizes(r, d, now)
    ensures r.chatConnections + r.statusConnections == r.totalConnections
  {
    EnumerationCovers(d, order);
    FlagCount(d, order, false);
    FlagCount(d, order, true);
    RolesPartition(d);
    ValuesExact(d, order);
    ActiveUsersExact(d, order);
  }

  /** An enumeration's elements are the keys, and it is as long as the directory. */
  lemma EnumerationCovers(d: Directory, order: seq<Id>)
    requires IsEnumeration(order, d.Keys)
    ensures Elements(order) == d.Keys
    ensures |order| == |d|
  {
    assert Elements(order) == d.Keys;
    NoDuplicatesCardinality(order);
    assert |d.Keys| == |d|;
  }

  /** The records read along an enumeration are exactly the dictionary's values. */
  lemma ValuesExact(d: Directory, order: seq<Id>)
    requires IsEnumeration(order, d.Keys)
    ensures forall c :: c in Values(d, order) <==> c in d.Values
  {
  }

  /** Adding one key to the candidates adds at most that key to the ids of a role. */
  lemma IdsWithFlagInsert(d: Directory, k: Id, ks: set<Id>, monitors: bool)
    requires k in d
    ensures d[k].isStatusMonitor == monitors ==>
      IdsWithFlag(d, {k} + ks, monitors) == {k} + IdsWithFlag(d, ks, monitors)
    ensures d[k].isStatusMonitor != monitors ==>
      IdsWithFlag(d, {k} + ks, monitors) == IdsWithFlag(d, ks, monitors)
  {
  }

  /** Adding a new key to the candidates adds one to the count of its role and nothing to the other. */
  lemma IdsWithFlagCount(d: Directory, k: Id, ks: set<Id>, monitors: bool)
    requires k in d && k !in ks
    ensures |IdsWithFlag(d, {k} + ks, monitors)| == |IdsWithFlag(d, ks, monitors)| + (if d[k].isStatusMonitor == monitors then 1 else 0)
  {
    IdsWithFlagInsert(d, k, ks, monitors);
    assert k !in IdsWithFlag(d, ks, monitors);
  }

  /** Reading along an enumeration reads its first key, then the rest. */
  lemma ValuesCons(d: Directory, order: seq<Id>)
    requires |order| > 0
    requires forall i | 0 <= i < |order| :: order[i] in d
    ensures Values(d, order) == [d[order[0]]] + Values(d, order[1..])
  {
  }

  /** Filtering a record followed by others filters the first, then the rest. */
  lemma FilterCons(c: ConnectionInfo, rs: seq<ConnectionInfo>, monitors: bool)
    ensures |WithMonitorFlag([c] + rs, monitors)| == |WithMonitorFlag(rs, monitors)| + (if c.isStatusMonitor == monitors then 1 else 0)
  {
    assert ([c] + rs)[1..] == rs;
  }

  /** Counting the records of one role along an enumeration counts the ids of that role. */
  lemma {:induction false} FlagCount(d: Directory, order: seq<Id>, monitors: bool)
    requires NoDuplicates(order)
    requires forall i | 0 <= i < |order| :: order[i] in d
    ensures |WithMonitorFlag(Values(d, order), monitors)| == |IdsWithFlag(d, Elements(order), monitors)|
  {
    if |order| > 0 {
      var k, rest := order[0], order[1..];
      TailOfNoDuplicates(order);
      FlagCount(d, rest, monitors);
      ValuesCons(d, order);
      FilterCons(d[k], Values(d, rest), monitors);
      IdsWithFlagCount(d, k, Elements(rest), monitors);
    }
  }

  /** Every record is either a chat connection or a status connection, never both. */
  lemma RolesPartition(d: Directory)
    ensures ChatIds(d) !! StatusIds(d)
    ensures |ChatIds(d)| + |StatusIds(d)| == |d|
  {
    assert ChatIds(d) + StatusIds(d) == d.Keys;
    assert |d.Keys| == |d|;
  }

  /** The active users read along an enumeration are exactly the active-user set. */
  lemma ActiveUsersExact(d: Directory, order: seq<Id>)
    requires IsEnumeration(order, d.Keys)
    ensures forall u :: u in Usernames(WithMonitorFlag(Values(d, order), false)) <==> u in ActiveUserSet(d)
  {
  }

  /** Every directory has an enumeration: the dictionary's iteration visits each key once. */
  method EnumerateKeys(d: Directory) returns (order: seq<Id>)
    ensures IsEnumeration(order, d.Keys)
  {
    order := [];
    var left := d.Keys;
    while left != {}
      invariant left <= d.Keys
      invariant NoDuplicates(order)
      invariant forall i | 0 <= i < |order| :: order[i] in d.Keys && order[i] !in left
      invariant forall k | k in d.Keys :: k in left || k in order
      decreases left
    {
      var k :| k in left;
      order := order + [k];
      left := left - {k};
    }
  }
}
