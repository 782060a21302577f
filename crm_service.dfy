/**
 * The in-memory CRM store (src/services/crmService.ts): the user and client
 * lists and the ledger of imported lead ids, with the operations the views
 * call. The artificial latency is gone, timestamps are milliseconds passed
 * in by the caller, and ids are built from them as `Date.now()` ids are.
 */
module CrmService {

  import opened Wrappers
  import opened Types
  import opened Seqs
  import opened Strings
  import opened Constants

  /** The errors the store throws. */
  datatype StoreError =
    | UserNotFound
    | MainAdminRoleLocked
    | MainAdminUndeletable
    | UserHasClients
    | ClientNotFound
    | LeadAlreadyImported(leadId: string)
    | NoAdvisorsAvailable

  /** The message of the thrown `Error`. */
  function Message(e: StoreError): (r: string)
    ensures e.LeadAlreadyImported? ==>
      |r| == 40 + |e.leadId| && r[..13] == "Lead with ID " && r[13..13 + |e.leadId|] == e.leadId
  {
    match e
    case UserNotFound => "User not found"
    case MainAdminRoleLocked => "Cannot change the role of the main admin account."
    case MainAdminUndeletable => "Cannot delete the main admin account."
    case UserHasClients => "Cannot delete user. Please reassign their clients first."
    case ClientNotFound => "Client not found"
    case LeadAlreadyImported(id) => "Lead with ID " + id + " has already been imported."
    case NoAdvisorsAvailable => "No advisors available to assign the new lead."
  }

  /** Two duplicate-lead messages are equal exactly when they name the same lead. */
  lemma LeadMessageNamesLead(a: string, b: string)
    ensures Message(LeadAlreadyImported(a)) == Message(LeadAlreadyImported(b)) <==> a == b
  {
    var m := Message(LeadAlreadyImported(a));
    if m == Message(LeadAlreadyImported(b)) {
      assert |a| == |b|;
      assert m[13..13 + |a|] == a;
      assert m[13..13 + |b|] == b;
    }
  }

  // ---------------------------------------------------------------------------
  // Specification functions over the store's lists

  /** `users.findIndex(u => u.id === id)`. */
  function UserIndex(users: seq<User>, id: string): int
  {
    FindIndex(users, (u: User) => u.id == id)
  }

  /** `clients.findIndex(c => c.id === id)`. */
  function ClientIndex(clients: seq<Client>, id: string): int
  {
    FindIndex(clients, (c: Client) => c.id == id)
  }

  /** The main administrator is among the users, with role Admin. */
  predicate HasMainAdmin(users: seq<User>)
  {
    exists i :: 0 <= i < |users| && users[i].id == MAIN_ADMIN_ID && users[i].role == Admin
  }

  /** Every client is assigned to the id of an existing user. */
  predicate AssignmentsResolve(clients: seq<Client>, users: seq<User>)
  {
    forall i :: 0 <= i < |clients| ==> HasUserId(users, clients[i].assignedTo)
  }

  /** Some client is assigned to `userId` (`clients.some(c => c.assignedTo === userId)`). */
  predicate IsAssigned(clients: seq<Client>, userId: string)
  {
    Any(clients, (c: Client) => c.assignedTo == userId)
  }

  /** `users.filter(u => u.id !== userId)`. */
  function WithoutUser(users: seq<User>, userId: string): (r: seq<User>)
    ensures forall i :: 0 <= i < |r| ==> r[i].id != userId
    ensures forall i :: 0 <= i < |users| && users[i].id != userId ==> users[i] in r
    ensures forall i :: 0 <= i < |r| ==> r[i] in users
    ensures IsSubsequence(r, users)
    ensures forall u :: multiset(r)[u] == if u.id != userId then multiset(users)[u] else 0
  {
    FilterIsSubsequence(users, (u: User) => u.id != userId);
    FilterCounts(users, (u: User) => u.id != userId);
    Filter(users, (u: User) => u.id != userId)
  }

  /** The users whose role is Advisor. */
  function Advisors(users: seq<User>): (r: seq<User>)
    ensures forall i :: 0 <= i < |r| ==> r[i] in users && r[i].role == Advisor
    ensures forall i :: 0 <= i < |users| && users[i].role == Advisor ==> users[i] in r
  {
    Filter(users, (u: User) => u.role == Advisor)
  }

  /** The clients `user` may see: all of them for an Admin, else those assigned to the user. */
  function VisibleClients(clients: seq<Client>, user: User): (r: seq<Client>)
    ensures user.role == Admin ==> r == clients
    ensures user.role != Admin ==> forall i :: 0 <= i < |r| ==> r[i] in clients && r[i].assignedTo == user.id
    ensures user.role != Admin ==> forall i :: 0 <= i < |clients| && clients[i].assignedTo == user.id ==> clients[i] in r
    ensures user.role != Admin ==>
      forall c :: multiset(r)[c] == if c.assignedTo == user.id then multiset(clients)[c] else 0
    ensures IsSubsequence(r, clients)
  {
    if user.role == Admin then
      IsSubsequenceOfItself(clients);
      clients
    else
      FilterIsSubsequence(clients, (c: Client) => c.assignedTo == user.id);
      FilterCounts(clients, (c: Client) => c.assignedTo == user.id);
      Filter(clients, (c: Client) => c.assignedTo == user.id)
  }

  /** The id the source builds from `Date.now()`, e.g. "note-1720602000000". */
  function StampedId(prefix: string, now: nat): string
  {
    prefix + DecimalString(now)
  }

  /** The text of the audit note a status change appends. */
  function StatusNoteText(newStatus: ProcessStage): string
  {
    "Status changed to \"" + StageValue(newStatus) + "\""
  }

  /**
   * A client after `updateClientStatus`: new status, `lastUpdate` refreshed,
   * one audit note appended; the same whether or not the status differs.
   */
  function StatusChanged(c: Client, newStatus: ProcessStage, authorName: string, now: nat): (r: Client)
    ensures r.status == newStatus && r.lastUpdate == now
    ensures |r.notes| == |c.notes| + 1 && r.notes[..|c.notes|] == c.notes
    ensures r.notes[|c.notes|].text == StatusNoteText(newStatus) && r.notes[|c.notes|].author == authorName
    ensures r.notes[|c.notes|].date == now
    ensures r.(status := c.status, lastUpdate := c.lastUpdate, notes := c.notes) == c
  {
    c.(status := newStatus, lastUpdate := now,
       notes := c.notes + [Note(StampedId("note-", now), now, StatusNoteText(newStatus), authorName)])
  }

  /** A client after `addNote`: the note appended, `lastUpdate` set to the note's date. */
  function NoteAdded(c: Client, note: Note): (r: Client)
    ensures r.notes == c.notes + [note] && r.lastUpdate == note.date
    ensures r.(notes := c.notes, lastUpdate := c.lastUpdate) == c
  {
    c.(notes := c.notes + [note], lastUpdate := note.date)
  }

  /** The text of the single note an imported lead starts with. */
  function ImportNoteText(leadId: string): string
  {
    "Lead from Meta Ads (ID: " + leadId + "). Awaiting first contact."
  }

  /** The client `addClientFromMeta` creates for `lead`, assigned to `advisorId`. */
  function ImportedClient(lead: LeadInfo, advisorId: string, now: nat): (r: Client)
    ensures r.name == lead.name && r.email == lead.email && r.phone == lead.phone
    ensures r.status == NewLead && r.tags == ["Meta Lead"] && r.assignedTo == advisorId
    ensures r.contactDate == r.lastUpdate == now
    ensures |r.notes| == 1 && r.notes[0].author == "System" && r.notes[0].text == ImportNoteText(lead.leadId)
  {
    Client(StampedId("client-", now), lead.name, lead.email, lead.phone, "Creación de Empresa LLC",
      NewLead, now, now, advisorId, ["Meta Lead"],
      [Note(StampedId("note-", now), now, ImportNoteText(lead.leadId), "System")])
  }

  /** The ids of the advisors among `users`: those a new lead may be assigned to. */
  function AdvisorIds(users: seq<User>): set<string>
  {
    set a | a in Advisors(users) :: a.id
  }

  /** `c` is the client imported for `lead` at time `now`, assigned to one of `advisorIds`. */
  predicate ClientOfLead(c: Client, lead: LeadInfo, now: nat, advisorIds: set<string>)
  {
    c.assignedTo in advisorIds && c == ImportedClient(lead, c.assignedTo, now)
  }

  /** `Array.from(new Set([...existing, ...newIds]))`: the ledger after recording `newIds`. */
  function WithImportedIds(existing: seq<string>, newIds: seq<string>): (r: seq<string>)
    ensures NoDuplicates(r)
    ensures forall x :: x in r <==> x in existing || x in newIds
  {
    var all := existing + newIds;
    assert forall x :: x in all ==> x in Dedup(all) by {
      forall x | x in all ensures x in Dedup(all) {
        var i :| 0 <= i < |all| && all[i] == x;
      }
    }
    Dedup(all)
  }

  // ---------------------------------------------------------------------------
  // Lemmas: every write keeps the store's invariant

  /** Replacing the user at `i` by one with the same id keeps every assignment resolvable. */
  lemma {:induction false} ReplaceUserKeepsAssignments(clients: seq<Client>, users: seq<User>, i: int, user: User)
    requires 0 <= i < |users| && users[i].id == user.id
    requires AssignmentsResolve(clients, users)
    ensures AssignmentsResolve(clients, users[i := user])
  {
    forall k | 0 <= k < |clients| ensures HasUserId(users[i := user], clients[k].assignedTo) {
      var j :| 0 <= j < |users| && users[j].id == clients[k].assignedTo;
      assert users[i := user][j].id == clients[k].assignedTo;
    }
  }

  /**
   * Replacing a user keeps the main administrator an Admin, unless the
   * replacement demotes the main administrator, which `updateUser` refuses.
   */
  lemma {:induction false} ReplaceUserKeepsMainAdmin(users: seq<User>, i: int, user: User)
    requires 0 <= i < |users| && users[i].id == user.id
    requires HasMainAdmin(users)
    requires user.id == MAIN_ADMIN_ID ==> user.role == Admin
    ensures HasMainAdmin(users[i := user])
  {
    if user.id == MAIN_ADMIN_ID {
      assert users[i := user][i].id == MAIN_ADMIN_ID;
    } else {
      var j :| 0 <= j < |users| && users[j].id == MAIN_ADMIN_ID && users[j].role == Admin;
      assert users[i := user][j] == users[j];
    }
  }

  /** Removing a user to whom no client is assigned keeps every assignment resolvable. */
  lemma {:induction false} RemoveUnassignedKeepsAssignments(clients: seq<Client>, users: seq<User>, userId: string)
    requires AssignmentsResolve(clients, users)
    requires !IsAssigned(clients, userId)
    ensures AssignmentsResolve(clients, WithoutUser(users, userId))
  {
    var rest := WithoutUser(users, userId);
    forall k | 0 <= k < |clients| ensures HasUserId(rest, clients[k].assignedTo) {
      var j :| 0 <= j < |users| && users[j].id == clients[k].assignedTo;
      assert clients[k].assignedTo != userId;
      assert users[j] in rest;
      var m :| 0 <= m < |rest| && rest[m] == users[j];
    }
  }

  /** Removing any user other than the main administrator keeps the main administrator. */
  lemma {:induction false} RemoveOtherKeepsMainAdmin(users: seq<User>, userId: string)
    requires HasMainAdmin(users) && userId != MAIN_ADMIN_ID
    ensures HasMainAdmin(WithoutUser(users, userId))
  {
    var rest := WithoutUser(users, userId);
    var j :| 0 <= j < |users| && users[j].id == MAIN_ADMIN_ID && users[j].role == Admin;
    assert users[j] in rest;
    var m :| 0 <= m < |rest| && rest[m] == users[j];
  }

  /** Replacing a client by one with the same assignee keeps every assignment resolvable. */
  lemma {:induction false} ReplaceClientKeepsAssignments(clients: seq<Client>, users: seq<User>, i: int, c: Client)
    requires 0 <= i < |clients| && clients[i].assignedTo == c.assignedTo
    requires AssignmentsResolve(clients, users)
    ensures AssignmentsResolve(clients[i := c], users)
  {
    var updated := clients[i := c];
    forall k | 0 <= k < |updated| ensures HasUserId(users, updated[k].assignedTo) {
      assert updated[k].assignedTo == clients[k].assignedTo;
    }
  }

  /** Putting a client assigned to an existing user in front keeps every assignment resolvable. */
  lemma {:induction false} PrependClientKeepsAssignments(clients: seq<Client>, users: seq<User>, c: Client)
    requires AssignmentsResolve(clients, users) && HasUserId(users, c.assignedTo)
    ensures AssignmentsResolve([c] + clients, users)
  {
    var updated := [c] + clients;
    forall k | 0 <= k < |updated| ensures HasUserId(users, updated[k].assignedTo) {
      if k > 0 {
        assert updated[k] == clients[k - 1];
      }
    }
  }

  /** Once a lead id is recorded in a ledger, importing it again is refused. */
  lemma RecordedLeadIsRefused(ledger: seq<string>, leadId: string)
    ensures leadId in WithImportedIds(ledger, [leadId])
  {
    assert leadId in [leadId];
  }

  // ---------------------------------------------------------------------------
  // The store

  class CrmStore {
    var users: seq<User>
    var clients: seq<Client>
    /** The persisted ledger of imported lead ids (browser local storage). */
    var importedLeadIds: seq<string>

    /** The whole content of the store. */
    ghost function State(): (seq<User>, seq<Client>, seq<string>)
      reads this
    {
      (users, clients, importedLeadIds)
    }

    ghost predicate Valid()
      reads this
    {
      HasMainAdmin(users) && AssignmentsResolve(clients, users)
    }

    /**
     * A store freshly loaded with the seed data. The ledger lives in
     * persistent storage, so it is whatever an earlier session left there.
     */
    constructor (loadTime: int, storedLeadIds: seq<string>)
      ensures Valid()
      ensures users == INITIAL_USERS && clients == InitialClients(loadTime)
      ensures importedLeadIds == storedLeadIds
    {
      users := INITIAL_USERS;
      clients := InitialClients(loadTime);
      importedLeadIds := storedLeadIds;
      InitialUsersShape();
      InitialAssignmentsResolve(loadTime);
    }

    method GetUsers() returns (r: seq<User>)
      ensures r == users
    {
      r := users;
    }

    /** Appends a new user whose id is stamped with the current time. */
    method AddUser(userData: UserData, now: nat) returns (u: User)
      requires Valid()
      modifies this
      ensures Valid()
      ensures u == User(StampedId("user-", now), userData.name, userData.role, userData.email, userData.whatsapp)
      ensures users == old(users) + [u]
      ensures clients == old(clients) && importedLeadIds == old(importedLeadIds)
    {
      u := User(StampedId("user-", now), userData.name, userData.role, userData.email, userData.whatsapp);
      var j :| 0 <= j < |users| && users[j].id == MAIN_ADMIN_ID && users[j].role == Admin;
      users := users + [u];
      assert users[j] == old(users)[j];
      forall k | 0 <= k < |clients| ensures HasUserId(users, clients[k].assignedTo) {
        var m :| 0 <= m < |old(users)| && old(users)[m].id == clients[k].assignedTo;
        assert users[m] == old(users)[m];
      }
    }

    /**
     * Replaces the first user with the same id. Fails on an unknown id, and
     * when asked to give the main administrator a role other than Admin.
     */
    method UpdateUser(user: User) returns (r: Result<User, StoreError>)
      requires Valid()
      modifies this
      ensures Valid()
      ensures var i := UserIndex(old(users), user.id);
        if i == -1 then r == Err(UserNotFound) && users == old(users)
        else if user.id == MAIN_ADMIN_ID && user.role != Admin then r == Err(MainAdminRoleLocked) && users == old(users)
        else r == Ok(user) && users == old(users)[i := user]
      ensures clients == old(clients) && importedLeadIds == old(importedLeadIds)
    {
      var userIndex := UserIndex(users, user.id);
      if userIndex == -1 {
        return Err(UserNotFound);
      }
      if user.id == MAIN_ADMIN_ID && user.role != Admin {
        return Err(MainAdminRoleLocked);
      }
      ReplaceUserKeepsAssignments(clients, users, userIndex, user);
      ReplaceUserKeepsMainAdmin(users, userIndex, user);
      users := users[userIndex := user];
      r := Ok(user);
    }

    /**
     * Removes every user with the id. Refuses the main administrator and any
     * user to whom a client is still assigned; an unknown id is no error.
     */
    method DeleteUser(userId: string) returns (r: Outcome<StoreError>)
      requires Valid()
      modifies this
      ensures Valid()
      ensures userId == MAIN_ADMIN_ID ==> r == Fail(MainAdminUndeletable) && users == old(users)
      ensures userId != MAIN_ADMIN_ID && IsAssigned(old(clients), userId) ==> r == Fail(UserHasClients) && users == old(users)
      ensures userId != MAIN_ADMIN_ID && !IsAssigned(old(clients), userId) ==> r == Pass && users == WithoutUser(old(users), userId)
      ensures clients == old(clients) && importedLeadIds == old(importedLeadIds)
    {
      if userId == MAIN_ADMIN_ID {
        return Fail(MainAdminUndeletable);
      }
      if IsAssigned(clients, userId) {
        return Fail(UserHasClients);
      }
      RemoveUnassignedKeepsAssignments(clients, users, userId);
      RemoveOtherKeepsMainAdmin(users, userId);
      users := WithoutUser(users, userId);
      r := Pass;
    }

    /** The clients `currentUser` may see, in store order. */
    method GetClients(currentUser: User) returns (r: seq<Client>)
      ensures r == VisibleClients(clients, currentUser)
    {
      r := VisibleClients(clients, currentUser);
    }

    method GetAllClients() returns (r: seq<Client>)
      ensures r == clients
    {
      r := clients;
    }

    /**
     * Sets the status of the first client with the id, refreshes its
     * `lastUpdate` and appends an audit note, even when the status is the
     * one the client already has.
     */
    method UpdateClientStatus(clientId: string, newStatus: ProcessStage, author: User, now: nat)
      returns (r: Result<Client, StoreError>)
      requires Valid()
      modifies this
      ensures Valid()
      ensures var i := ClientIndex(old(clients), clientId);
        if i == -1 then r == Err(ClientNotFound) && clients == old(clients)
        else
          var c := StatusChanged(old(clients)[i], newStatus, author.name, now);
          r == Ok(c) && clients == old(clients)[i := c]
      ensures users == old(users) && importedLeadIds == old(importedLeadIds)
    {
      var clientIndex := ClientIndex(clients, clientId);
      if clientIndex == -1 {
        return Err(ClientNotFound);
      }
      var client := StatusChanged(clients[clientIndex], newStatus, author.name, now);
      ReplaceClientKeepsAssignments(clients, users, clientIndex, client);
      clients := clients[clientIndex := client];
      r := Ok(client);
    }

    /**
     * Imports a lead as a new client at the front of the list, assigned to
     * an advisor chosen at random, and records its id in the ledger.
     * Refuses a lead id already in the ledger, and fails when there is no
     * advisor; either failure changes nothing.
     */
    method AddClientFromMeta(leadData: LeadInfo, now: nat) returns (r: Result<Client, StoreError>)
      requires Valid()
      modifies this
      ensures Valid()
      ensures leadData.leadId in old(importedLeadIds) ==>
        r == Err(LeadAlreadyImported(leadData.leadId))
        && clients == old(clients) && importedLeadIds == old(importedLeadIds)
      ensures leadData.leadId !in old(importedLeadIds) && |Advisors(old(users))| == 0 ==>
        r == Err(NoAdvisorsAvailable)
        && clients == old(clients) && importedLeadIds == old(importedLeadIds)
      ensures leadData.leadId !in old(importedLeadIds) && |Advisors(old(users))| > 0 ==>
        && r.Ok?
        && ClientOfLead(r.value, leadData, now, AdvisorIds(old(users)))
        && clients == [r.value] + old(clients)
        && importedLeadIds == WithImportedIds(old(importedLeadIds), [leadData.leadId])
      ensures users == old(users)
    {
      var importedIds := importedLeadIds;
      if leadData.leadId in importedIds {
        return Err(LeadAlreadyImported(leadData.leadId));
      }
      var advisors := Advisors(users);
      if |advisors| == 0 {
        return Err(NoAdvisorsAvailable);
      }
      assert advisors[0] in advisors;
      var assignedAdvisor :| assignedAdvisor in advisors;
      var newClient := ImportedClient(leadData, assignedAdvisor.id, now);
      var m :| 0 <= m < |users| && users[m] == assignedAdvisor;
      assert HasUserId(users, newClient.assignedTo);
      PrependClientKeepsAssignments(clients, users, newClient);
      clients := [newClient] + clients;
      importedLeadIds := WithImportedIds(importedLeadIds, [leadData.leadId]);
      r := Ok(newClient);
    }

    /** Appends a note to the first client with the id and sets `lastUpdate` to the note's date. */
    method AddNote(clientId: string, noteText: string, author: User, now: nat) returns (r: Result<Note, StoreError>)
      requires Valid()
      modifies this
      ensures Valid()
      ensures var i := ClientIndex(old(clients), clientId);
        if i == -1 then r == Err(ClientNotFound) && clients == old(clients)
        else
          var note := Note(StampedId("note-", now), now, noteText, author.name);
          r == Ok(note) && clients == old(clients)[i := NoteAdded(old(clients)[i], note)]
      ensures users == old(users) && importedLeadIds == old(importedLeadIds)
    {
      var clientIndex := ClientIndex(clients, clientId);
      if clientIndex == -1 {
        return Err(ClientNotFound);
      }
      var newNote := Note(StampedId("note-", now), now, noteText, author.name);
      var client := NoteAdded(clients[clientIndex], newNote);
      ReplaceClientKeepsAssignments(clients, users, clientIndex, client);
      clients := clients[clientIndex := client];
      r := Ok(newNote);
    }

    method GetImportedLeadIds() returns (ids: seq<string>)
      ensures ids == importedLeadIds
    {
      ids := importedLeadIds;
    }

    /** Records `newIds` in the ledger, keeping it free of duplicates. */
    method AddImportedLeadIds(newIds: seq<string>)
      modifies this
      ensures importedLeadIds == WithImportedIds(old(importedLeadIds), newIds)
      ensures users == old(users) && clients == old(clients)
    {
      var existingIds := importedLeadIds;
      importedLeadIds := WithImportedIds(existingIds, newIds);
    }
  }

  /**
   * Importing the same lead twice creates at most one client: the second
   * call always fails, and after a successful first call it is refused as
   * a duplicate and leaves the clients as the first call left them.
   */
  method ImportTwice(store: CrmStore, lead: LeadInfo, t1: nat, t2: nat)
    returns (first: Result<Client, StoreError>, second: Result<Client, StoreError>)
    requires store.Valid()
    modifies store
    ensures store.Valid()
    ensures second.Err?
    ensures first.Ok? ==> second == Err(LeadAlreadyImported(lead.leadId))
    ensures first.Ok? ==> store.clients == [first.value] + old(store.clients)
    ensures first.Err? ==> store.clients == old(store.clients)
  {
    first := store.AddClientFromMeta(lead, t1);
    RecordedLeadIsRefused(old(store.importedLeadIds), lead.leadId);
    second := store.AddClientFromMeta(lead, t2);
  }
}
