/**
 * The funnel board (src/components/KanbanBoard.tsx): columns per stage and
 * the drag-and-drop status change with its optimistic update and rollback.
 */
module KanbanBoard {

  import opened Wrappers
  import opened Types
  import opened Seqs
  import opened Constants
  import opened CrmService

  /** `clients.map(c => c.id === id ? { ...c, status, lastUpdate: now } : c)`. */
  function Optimistic(clients: seq<Client>, id: string, newStatus: ProcessStage, now: int): (r: seq<Client>)
    ensures |r| == |clients|
    ensures forall i :: 0 <= i < |r| && clients[i].id != id ==> r[i] == clients[i]
    ensures forall i :: 0 <= i < |r| && clients[i].id == id ==>
      r[i] == clients[i].(status := newStatus, lastUpdate := now)
  {
    seq(|clients|, i requires 0 <= i < |clients| =>
      if clients[i].id == id then clients[i].(status := newStatus, lastUpdate := now) else clients[i])
  }

  /** `clients.map(c => c.id === id ? snapshot : c)`. */
  function Rollback(clients: seq<Client>, id: string, snapshot: Client): (r: seq<Client>)
    ensures |r| == |clients|
    ensures forall i :: 0 <= i < |r| ==> r[i] == if clients[i].id == id then snapshot else clients[i]
  {
    seq(|clients|, i requires 0 <= i < |clients| => if clients[i].id == id then snapshot else clients[i])
  }

  /** No two entries of the list share an id. */
  predicate UniqueIds(clients: seq<Client>)
  {
    forall i, j :: 0 <= i < j < |clients| ==> clients[i].id != clients[j].id
  }

  /**
   * Restoring the snapshot of the dragged client undoes the optimistic
   * update, provided every entry with that id is the snapshotted one
   * (as when ids are unique).
   */
  lemma RollbackRestores(clients: seq<Client>, id: string, newStatus: ProcessStage, now: int, k: int)
    requires 0 <= k < |clients| && clients[k].id == id
    requires forall i :: 0 <= i < |clients| && clients[i].id == id ==> clients[i] == clients[k]
    ensures Rollback(Optimistic(clients, id, newStatus, now), id, clients[k]) == clients
  {
  }

  /** The board's columns: for each stage, in funnel order, the clients in that stage. */
  function Columns(clients: seq<Client>): (cols: seq<seq<Client>>)
    ensures |cols| == |PROCESS_STAGES_ORDER|
    ensures forall k :: 0 <= k < |cols| ==> cols[k] == InStage(clients, PROCESS_STAGES_ORDER[k])
    ensures forall k, i :: 0 <= k < |cols| && 0 <= i < |clients| ==>
      (clients[i] in cols[k] <==> clients[i].status == PROCESS_STAGES_ORDER[k])
  {
    seq(|PROCESS_STAGES_ORDER|, k requires 0 <= k < |PROCESS_STAGES_ORDER| => InStage(clients, PROCESS_STAGES_ORDER[k]))
  }

  /** The columns together hold every client of the board once. */
  lemma ColumnsPartitionClients(clients: seq<Client>)
    ensures var cols := Columns(clients);
      |cols[0]| + |cols[1]| + |cols[2]| + |cols[3]| + |cols[4]| + |cols[5]| == |clients|
  {
    StageCountsSum(clients);
  }

  /** `!draggedClientId` is false: an id is held and it is not the empty string. */
  predicate IsDragging(draggedClientId: Option<string>)
  {
    draggedClientId.Some? && draggedClientId.value != ""
  }

  class Board {
    const store: CrmStore
    const currentUser: User
    /** The board's own copy of the clients it shows. */
    var clients: seq<Client>
    var draggedClientId: Option<string>

    constructor (store: CrmStore, currentUser: User)
      ensures this.store == store && this.currentUser == currentUser
      ensures clients == [] && draggedClientId == None
    {
      this.store := store;
      this.currentUser := currentUser;
      clients := [];
      draggedClientId := None;
    }

    /** Loads the clients the current user may see. */
    method FetchClients()
      modifies this`clients
      ensures clients == VisibleClients(store.clients, currentUser)
    {
      clients := store.GetClients(currentUser);
    }

    method HandleDragStart(clientId: string)
      modifies this`draggedClientId
      ensures draggedClientId == Some(clientId)
    {
      draggedClientId := Some(clientId);
    }

    /**
     * Drops the dragged client on the column of `newStatus`. A client that
     * is missing from the board or already has that status is left alone and
     * the store is not called. Otherwise the board shows the change at once
     * (`localNow` is the board's clock), then asks the store (`storeNow` is
     * the store's clock); if the store fails, the snapshot taken before the
     * change is put back. The note the store appends is not shown.
     */
    method HandleDrop(newStatus: ProcessStage, localNow: nat, storeNow: nat)
      requires store.Valid()
      modifies this`clients, this`draggedClientId, store
      ensures store.Valid()
      ensures !IsDragging(old(draggedClientId)) ==>
        clients == old(clients) && draggedClientId == old(draggedClientId) && store.State() == old(store.State())
      ensures IsDragging(old(draggedClientId)) ==> draggedClientId == None
      ensures IsDragging(old(draggedClientId)) ==>
        var id := old(draggedClientId).value;
        var k := ClientIndex(old(clients), id);
        if k == -1 || old(clients)[k].status == newStatus then
          clients == old(clients) && store.State() == old(store.State())
        else
          var optimistic := Optimistic(old(clients), id, newStatus, localNow);
          var i := ClientIndex(old(store.clients), id);
          if i == -1 then
            && clients == Rollback(optimistic, id, old(clients)[k])
            && (UniqueIds(old(clients)) ==> clients == old(clients))
            && store.State() == old(store.State())
          else
            && clients == optimistic
            && store.clients == old(store.clients)[i := StatusChanged(old(store.clients)[i], newStatus, currentUser.name, storeNow)]
            && store.users == old(store.users) && store.importedLeadIds == old(store.importedLeadIds)
    {
      if !IsDragging(draggedClientId) {
        return;
      }
      var id := draggedClientId.value;
      var k := ClientIndex(clients, id);
      if k != -1 && clients[k].status != newStatus {
        var originalClient := clients[k];
        clients := Optimistic(clients, id, newStatus, localNow);
        var r := store.UpdateClientStatus(id, newStatus, currentUser, storeNow);
        if r.Err? {
          clients := Rollback(clients, id, originalClient);
          if UniqueIds(old(clients)) {
            RollbackRestores(old(clients), id, newStatus, localNow, k);
          }
        }
      }
      draggedClientId := None;
    }
  }
}
