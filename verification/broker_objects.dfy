/** The objects behind the state machine: `PendingGroup`, the two maps of
    `HostExecBroker` and `GatewayRequestLifecycle`, updated field by field as the
    program does it, each method proved against the table function of the step. */
module BrokerObjects {
  import opened Wrappers
  import opened Broker

  class PendingGroup {
    ghost const gid: Gid
    const approvalKey: Key
    var requestIds: set<Id>
    var requests: map<Id, Tok>
    var waiters: map<Id, Tok>
    var pendingEntries: map<Id, Tok>
    var timer: bool

    ghost function Value(): Group
      reads this
    {
      Group(approvalKey, requestIds, requests, waiters, pendingEntries, timer)
    }

    constructor (ghost gid: Gid, approvalKey: Key)
      ensures this.gid == gid && Value() == Group(approvalKey, {}, map[], map[], map[], true)
    {
      this.gid := gid;
      this.approvalKey := approvalKey;
      requestIds := {};
      requests := map[];
      waiters := map[];
      pendingEntries := map[];
      timer := true;
    }

    method Add(id: Id, waiter: Tok)
      modifies this
      ensures Value() == WithRequest(old(Value()), id, waiter)
    {
      requestIds := requestIds + {id};
      requests := requests[id := waiter];
      pendingEntries := pendingEntries[id := waiter];
      waiters := waiters[id := waiter];
    }

    method Remove(id: Id)
      returns (waiter: Option<Tok>)
      modifies this
      ensures Value() == WithoutRequest(old(Value()), id)
      ensures waiter == WaiterOf(old(Value()), id)
    {
      waiter := if id in waiters then Some(waiters[id]) else None;
      waiters := waiters - {id};
      requests := requests - {id};
      requestIds := requestIds - {id};
      pendingEntries := pendingEntries - {id};
    }

    method ClearTimer()
      modifies this
      ensures Value() == old(Value()).(timer := false)
    {
      timer := false;
    }
  }

  class HostExecBroker {
    var groups: map<Key, PendingGroup>
    var requestToApprovalKey: map<Id, Key>
    ghost var heap: map<Gid, PendingGroup>
    ghost var nextGid: Gid

    ghost predicate Valid()
      reads this, heap.Values
    {
      && (forall g | g in heap :: heap[g].gid == g && g < nextGid)
      && (forall k | k in groups ::
            groups[k].gid in heap && heap[groups[k].gid] == groups[k] && groups[k].approvalKey == k)
    }

    ghost function Contents(): Tables
      reads this, heap.Values
    {
      Tables(Heap(), Gids(), requestToApprovalKey, nextGid)
    }

    ghost function Heap(): map<Gid, Group>
      reads this`heap, heap.Values
    {
      map g | g in heap :: heap[g].Value()
    }

    ghost function Gids(): map<Key, Gid>
      reads this`groups
    {
      map k | k in groups :: groups[k].gid
    }

    constructor ()
      ensures Valid() && Contents() == INIT.tables
    {
      groups := map[];
      requestToApprovalKey := map[];
      heap := map[];
      nextGid := 0;
    }

    method FindGroupByRequestId(id: Id)
      returns (group: PendingGroup?)
      requires Valid()
      ensures (group == null) == FindGroup(Contents(), id).None?
      ensures group != null ==>
          group.gid in heap && heap[group.gid] == group && FindGroup(Contents(), id) == Some(group.gid)
    {
      if id !in requestToApprovalKey || requestToApprovalKey[id] !in groups { return null; }
      return groups[requestToApprovalKey[id]];
    }

    /** `createPendingGroup`, up to the registry write. */
    method CreatePendingGroup(key: Key, id: Id, waiter: Tok)
      returns (group: PendingGroup)
      requires Valid() && key !in groups
      modifies this
      ensures Valid() && fresh(group)
      ensures Contents() == Create(old(Contents()), key, id, waiter)
      ensures heap == old(heap)[old(nextGid) := group]
    {
      group := NewGroup(key, id, waiter);
      Publish(group, id);
    }

    method NewGroup(key: Key, id: Id, waiter: Tok)
      returns (group: PendingGroup)
      requires Valid()
      modifies this`heap, this`nextGid
      ensures Valid() && fresh(group) && group.approvalKey == key && group.gid == old(nextGid)
      ensures heap == old(heap)[group.gid := group] && nextGid == old(nextGid) + 1
      ensures Heap() == old(Heap())[group.gid := WithRequest(Group(key, {}, map[], map[], map[], true), id, waiter)]
    {
      group := new PendingGroup(nextGid, key);
      group.Add(id, waiter);
      Track(group);
    }

    method Publish(group: PendingGroup, id: Id)
      requires Valid() && group.gid in heap && heap[group.gid] == group
      modifies this`groups, this`requestToApprovalKey
      ensures Valid() && Gids() == old(Gids())[group.approvalKey := group.gid]
      ensures requestToApprovalKey == old(requestToApprovalKey)[id := group.approvalKey]
    {
      groups := groups[group.approvalKey := group];
      requestToApprovalKey := requestToApprovalKey[id := group.approvalKey];
    }

    ghost method Track(group: PendingGroup)
      requires Valid() && group.gid == nextGid
      modifies this`heap, this`nextGid
      ensures Valid() && heap == old(heap)[group.gid := group] && nextGid == old(nextGid) + 1
      ensures Heap() == old(Heap())[group.gid := group.Value()]
    {
      heap := heap[group.gid := group];
      nextGid := nextGid + 1;
    }

    /** The second branch of the registration: the group exists. `false`: the id is
        already pending there. */
    method JoinGroup(key: Key, id: Id, waiter: Tok)
      returns (joined: bool)
      requires Valid() && key in groups
      modifies this`requestToApprovalKey, groups[key]
      ensures Valid() && heap == old(heap)
      ensures joined == (id !in old(groups[key].requests))
      ensures Contents() == if joined then Join(old(Contents()), groups[key].gid, key, id, waiter) else old(Contents())
    {
      var group := groups[key];
      if id in group.requests { return false; }
      requestToApprovalKey := requestToApprovalKey[id := key];
      group.Add(id, waiter);
      return true;
    }

    /** `removePendingRequest`, up to its first await. */
    method BeginRemove(id: Id)
      returns (group: PendingGroup?, waiter: Option<Tok>)
      requires Valid()
      modifies this`requestToApprovalKey, heap.Values
      ensures Valid() && heap == old(heap)
      ensures match FindGroup(old(Contents()), id)
              case None => group == null && waiter.None?
                  && Contents() == old(Contents()).(keyOf := old(Contents()).keyOf - {id})
              case Some(gid) =>
                && group == heap[gid] && waiter == WaiterOf(old(Contents()).heap[gid], id)
                && Contents() == Unlist(old(Contents()), gid, id)
    {
      group := FindGroupByRequestId(id);
      waiter := None;
      requestToApprovalKey := requestToApprovalKey - {id};
      if group != null { waiter := RemoveFrom(group, id); }
    }

    method RemoveFrom(group: PendingGroup, id: Id)
      returns (waiter: Option<Tok>)
      requires Valid() && group.gid in heap && heap[group.gid] == group
      modifies group
      ensures Valid() && Gids() == old(Gids())
      ensures Heap() == old(Heap())[group.gid := WithoutRequest(old(group.Value()), id)]
      ensures waiter == WaiterOf(old(group.Value()), id)
    {
      waiter := group.Remove(id);
      assert Heap() == old(Heap())[group.gid := group.Value()];
    }

    /** What follows the registry removal once a group ran empty. `guarded`: the test
        of line 1136. */
    method DropGroup(group: PendingGroup, guarded: bool)
      requires Valid() && group.gid in heap && heap[group.gid] == group
      modifies this`groups, group
      ensures Valid() && heap == old(heap)
      ensures Contents() == DropEmpty(old(Contents()), group.gid, guarded)
    {
      Registered(group);
      group.ClearTimer();
      assert Heap() == old(Heap())[group.gid := group.Value()];
      assert Valid();
      if !guarded || (group.approvalKey in groups && groups[group.approvalKey] == group) {
        Unpublish(group.approvalKey);
      }
    }

    lemma Registered(group: PendingGroup)
      requires Valid() && group.gid in heap && heap[group.gid] == group
      ensures GroupByKey(Contents(), group.approvalKey) == Some(group.gid)
              <==> group.approvalKey in groups && groups[group.approvalKey] == group
    {
    }

    /** `resolveGroup` without a selected request, up to its first await. */
    method DetachGroup(key: Key)
      returns (group: PendingGroup?)
      requires Valid()
      modifies this`groups, heap.Values
      ensures Valid() && heap == old(heap)
      ensures match GroupByKey(old(Contents()), key)
              case None => group == null && Contents() == old(Contents())
              case Some(gid) => group == heap[gid] && Contents() == Detach(old(Contents()), gid, key)
    {
      if key !in groups { return null; }
      group := groups[key];
      group.ClearTimer();
      assert Heap() == old(Heap())[group.gid := group.Value()];
      Unpublish(key);
    }

    method Unpublish(key: Key)
      requires Valid()
      modifies this`groups
      ensures Valid() && Gids() == old(Gids()) - {key}
    {
      groups := groups - {key};
    }
  }

  /** The fields of `GatewayRequestLifecycle` the decisions depend on. */
  class GatewayRequestLifecycle {
    var state: Life
    var cleanupSet: bool
    var cleanupRequested: bool
    var cleanupStarted: bool
    var deferred: Option<bool>   // a monitor event and whether it cancels

    ghost predicate Valid()
      reads this
    {
      cleanupRequested == state.Cancelled? && cleanupStarted == (cleanupSet && cleanupRequested)
    }

    constructor ()
      ensures Valid() && state == Preflight && !cleanupSet && deferred.None?
    {
      state := Preflight;
      cleanupSet := false;
      cleanupRequested := false;
      cleanupStarted := false;
      deferred := None;
    }

    method SetCleanup()
      requires Valid()
      modifies this
      ensures Valid() && cleanupSet && state == old(state) && deferred == old(deferred)
    {
      cleanupSet := true;
      if cleanupRequested { cleanupStarted := true; }
    }

    method DeferMonitorEvent(cancels: bool)
      requires Valid()
      modifies this`deferred
      ensures Valid() && deferred == if state == Preflight then Some(cancels) else old(deferred)
    {
      if state == Preflight { deferred := Some(cancels); }
    }

    method MarkAwaitingApproval()
      returns (event: Option<bool>)
      requires Valid()
      modifies this
      ensures Valid() && event == old(deferred) && deferred.None? && cleanupSet == old(cleanupSet)
      ensures state == if old(state) == Preflight then Awaiting else old(state)
    {
      if state == Preflight { state := Awaiting; }
      event := deferred;
      deferred := None;
    }

    method MarkRunning()
      requires Valid()
      modifies this`state
      ensures Valid() && forall c: Conn | c.life == old(state) :: state == Broker.MarkRunning(c).life
    {
      if state != Cancelled { state := Life.Running; }
    }

    method MarkTerminal()
      requires Valid()
      modifies this`state
      ensures Valid() && forall c: Conn | c.life == old(state) :: state == Broker.MarkTerminal(c).life
    {
      if state != Cancelled { state := Terminal; }
    }

    /** A cancellation takes effect once, and never after the request has ended. */
    method Cancel()
      returns (started: bool)
      requires Valid()
      modifies this
      ensures Valid() && cleanupSet == old(cleanupSet) && deferred == old(deferred)
      ensures state == if old(state) == Terminal then Terminal else Cancelled
      ensures started <==> old(cleanupSet) && old(state) !in {Terminal, Cancelled}
    {
      if state == Cancelled || state == Terminal { return false; }
      state := Cancelled;
      cleanupRequested := true;
      started := cleanupSet && !cleanupStarted;
      if started { cleanupStarted := true; }
    }
  }
}
