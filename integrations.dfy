/**
 * The lead synchronisation of the integrations page
 * (`handleSyncLeads` in src/components/Integrations.tsx): fetch the form's
 * leads, drop those already imported, and import the rest one by one.
 */
module Integrations {

  import opened Wrappers
  import opened Types
  import opened Seqs
  import opened CrmService
  import opened MetaApiService

  /** How a sync ends, as its notification reports it. */
  datatype SyncOutcome =
    | NoFormSelected
    | SyncFailed(message: string)
    | NoNewLeads
    | Imported(successCount: nat)

  /** `!selectedFormId` is false: a form id is held and it is not the empty string. */
  predicate IsSelected(selectedFormId: Option<string>)
  {
    selectedFormId.Some? && selectedFormId.value != ""
  }

  /** The leads whose id is not yet in the ledger, in the order fetched. */
  function NewLeads(leads: seq<MetaLead>, importedIds: seq<string>): (r: seq<MetaLead>)
    ensures forall i :: 0 <= i < |r| ==> r[i] in leads && r[i].id !in importedIds
    ensures forall i :: 0 <= i < |leads| && leads[i].id !in importedIds ==> leads[i] in r
    ensures forall l :: multiset(r)[l] == if l.id !in importedIds then multiset(leads)[l] else 0
    ensures IsSubsequence(r, leads)
  {
    FilterIsSubsequence(leads, (l: MetaLead) => l.id !in importedIds);
    FilterCounts(leads, (l: MetaLead) => l.id !in importedIds);
    Filter(leads, (l: MetaLead) => l.id !in importedIds)
  }

  /** The distinct ids of a batch of leads. */
  ghost function LeadIds(leads: seq<MetaLead>): set<string>
  {
    set l | l in leads :: l.id
  }

  /** A batch has no more distinct ids than leads. */
  lemma {:induction false} LeadIdsBound(leads: seq<MetaLead>)
    ensures |LeadIds(leads)| <= |leads|
  {
    if |leads| > 0 {
      var init := leads[..|leads| - 1];
      assert leads == init + [leads[|leads| - 1]];
      assert LeadIds(leads) == LeadIds(init) + {leads[|leads| - 1].id};
      LeadIdsBound(init);
    }
  }

  /**
   * The positions, in input order, of the leads whose id does not occur
   * earlier in the batch: the leads an import turns into clients.
   */
  ghost function FirstIndices(leads: seq<MetaLead>): (f: seq<nat>)
    ensures forall a :: 0 <= a < |f| ==> f[a] < |leads|
  {
    if |leads| == 0 then []
    else
      var init := leads[..|leads| - 1];
      if leads[|leads| - 1].id in LeadIds(init) then FirstIndices(init)
      else FirstIndices(init) + [|leads| - 1]
  }

  /** One more lead adds its position exactly when its id is new to the prefix before it. */
  lemma FirstIndicesSnoc(leads: seq<MetaLead>, k: nat)
    requires k < |leads|
    ensures FirstIndices(leads[..k + 1]) ==
      if leads[k].id in LeadIds(leads[..k]) then FirstIndices(leads[..k]) else FirstIndices(leads[..k]) + [k]
  {
    assert leads[..k + 1][..k] == leads[..k];
  }

  /** Positions listed in input order, each within the batch and holding an id new at that point. */
  ghost predicate FirstOccurrencesInOrder(leads: seq<MetaLead>, f: seq<nat>)
  {
    && (forall a, b :: 0 <= a < b < |f| ==> f[a] < f[b])
    && (forall a :: 0 <= a < |f| ==> f[a] < |leads| && leads[f[a]].id !in LeadIds(leads[..f[a]]))
  }

  /** The first occurrences come in input order, and no earlier lead carries the same id. */
  lemma {:induction false} FirstIndicesInOrder(leads: seq<MetaLead>)
    ensures FirstOccurrencesInOrder(leads, FirstIndices(leads))
  {
    if |leads| > 0 {
      var n := |leads|;
      var init := leads[..n - 1];
      var g := FirstIndices(init);
      FirstIndicesInOrder(init);
      forall a | 0 <= a < |g|
        ensures leads[g[a]] == init[g[a]] && leads[..g[a]] == init[..g[a]]
      {
      }
      var f := FirstIndices(leads);
      var isNew := leads[n - 1].id !in LeadIds(init);
      assert f == if isNew then g + [n - 1] else g;
      forall a | 0 <= a < |f|
        ensures a < |g| ==> f[a] == g[a]
        ensures a == |g| ==> f[a] == n - 1 && leads[..f[a]] == init && isNew
      {
      }
      forall a, b | 0 <= a < b < |f| ensures f[a] < f[b] {
        if b < |g| {
          assert g[a] < g[b];
        } else {
          assert g[a] < |init|;
        }
      }
      forall a | 0 <= a < |f| ensures leads[f[a]].id !in LeadIds(leads[..f[a]]) {
        if a < |g| {
          assert init[g[a]].id !in LeadIds(init[..g[a]]);
        }
      }
    }
  }

  /** The leads at the first occurrences carry pairwise different ids. */
  lemma FirstIndicesDistinct(leads: seq<MetaLead>)
    ensures var f := FirstIndices(leads);
      forall a, b :: 0 <= a < b < |f| ==> leads[f[a]].id != leads[f[b]].id
  {
    var f := FirstIndices(leads);
    FirstIndicesInOrder(leads);
    forall a, b | 0 <= a < b < |f| ensures leads[f[a]].id != leads[f[b]].id {
      assert leads[f[a]] in leads[..f[b]];
    }
  }

  /** There are as many first occurrences as distinct ids. */
  lemma {:induction false} FirstIndicesCount(leads: seq<MetaLead>)
    ensures |FirstIndices(leads)| == |LeadIds(leads)|
  {
    if |leads| > 0 {
      var n := |leads|;
      var init := leads[..n - 1];
      var x := leads[n - 1];
      FirstIndicesCount(init);
      assert leads == init + [x];
      LeadIdsSnoc(init, x);
      if x.id in LeadIds(init) {
        assert FirstIndices(leads) == FirstIndices(init);
        assert LeadIds(leads) == LeadIds(init);
      } else {
        assert FirstIndices(leads) == FirstIndices(init) + [n - 1];
        assert LeadIds(leads) == LeadIds(init) + {x.id};
      }
    }
  }

  /** The ids of the leads at positions `f`. */
  ghost function IdsAt(leads: seq<MetaLead>, f: seq<nat>): set<string>
  {
    set a | 0 <= a < |f| && f[a] < |leads| :: leads[f[a]].id
  }

  /** Appending a lead leaves the ids at earlier positions alone, and its own position adds its id. */
  lemma IdsAtExtend(init: seq<MetaLead>, x: MetaLead, g: seq<nat>)
    requires forall a :: 0 <= a < |g| ==> g[a] < |init|
    ensures IdsAt(init + [x], g) == IdsAt(init, g)
    ensures IdsAt(init + [x], g + [|init|]) == IdsAt(init, g) + {x.id}
  {
    var leads := init + [x];
    var f := g + [|init|];
    assert forall a :: 0 <= a < |g| ==> leads[g[a]] == init[g[a]];
    forall id | id in IdsAt(leads, f) ensures id in IdsAt(init, g) + {x.id} {
      var a :| 0 <= a < |f| && f[a] < |leads| && leads[f[a]].id == id;
      if a < |g| {
        assert f[a] == g[a];
      }
    }
    forall id | id in IdsAt(init, g) + {x.id} ensures id in IdsAt(leads, f) {
      if id == x.id {
        assert f[|g|] == |init| && leads[f[|g|]] == x;
      } else {
        var a :| 0 <= a < |g| && g[a] < |init| && init[g[a]].id == id;
        assert f[a] == g[a];
      }
    }
  }

  /** The ids at the first occurrences are exactly the batch's ids. */
  lemma {:induction false} FirstIndicesCover(leads: seq<MetaLead>)
    ensures IdsAt(leads, FirstIndices(leads)) == LeadIds(leads)
  {
    if |leads| > 0 {
      var n := |leads|;
      var init := leads[..n - 1];
      var x := leads[n - 1];
      FirstIndicesCover(init);
      assert leads == init + [x];
      LeadIdsSnoc(init, x);
      IdsAtExtend(init, x, FirstIndices(init));
      if x.id in LeadIds(init) {
        assert FirstIndices(leads) == FirstIndices(init);
      } else {
        assert FirstIndices(leads) == FirstIndices(init) + [n - 1];
      }
    }
  }

  /** The distinct ids of a batch grow by the id of the lead appended. */
  lemma LeadIdsSnoc(leads: seq<MetaLead>, lead: MetaLead)
    ensures LeadIds(leads + [lead]) == LeadIds(leads) + {lead.id}
  {
  }

  /** Recording one id in a ledger that holds `ledger` and `added` makes it hold `added + {id}`. */
  lemma LedgerStep(before: seq<string>, after: seq<string>, ledger: seq<string>, added: set<string>, id: string)
    requires forall x :: x in before <==> x in ledger || x in added
    requires forall x :: x in after <==> x in before || x == id
    ensures forall x :: x in after <==> x in ledger || x in added + {id}
  {
  }

  /** Prepending one more client keeps the earlier clients behind the new ones. */
  lemma PrependKeepsBase(before: seq<Client>, after: seq<Client>, n: nat, base: seq<Client>)
    requires n <= |before| && before[n..] == base
    requires |after| == |before| + 1 && after[1..] == before
    ensures after[n + 1..] == base
  {
    assert after[n + 1..] == before[n..];
  }

  /** `extractLeadInfo` applied to every lead of a batch, position by position. */
  function LeadInfos(leads: seq<MetaLead>): (r: seq<LeadInfo>)
    ensures |r| == |leads|
  {
    seq(|leads|, i requires 0 <= i < |leads| => ExtractLeadInfo(leads[i]))
  }

  /**
   * The first `|order|` clients are the imports of the lead data at the
   * positions `order`, the last one first, each stamped with the clock
   * reading of its turn and assigned to one of `advisorIds`.
   */
  ghost predicate ImportsAhead(clients: seq<Client>, infos: seq<LeadInfo>, order: seq<nat>,
                               clock: nat -> nat, advisorIds: set<string>)
  {
    && |order| <= |clients|
    && forall j :: 0 <= j < |order| ==>
         order[j] < |infos| && ClientOfLead(clients[|order| - 1 - j], infos[order[j]], clock(order[j]), advisorIds)
  }

  /** Importing the lead at position `k` in front extends the imports by that position. */
  lemma ImportsAheadStep(before: seq<Client>, after: seq<Client>, infos: seq<LeadInfo>, order: seq<nat>,
                         k: nat, clock: nat -> nat, advisorIds: set<string>)
    requires ImportsAhead(before, infos, order, clock, advisorIds)
    requires |after| == |before| + 1 && after[1..] == before
    requires k < |infos| && ClientOfLead(after[0], infos[k], clock(k), advisorIds)
    ensures ImportsAhead(after, infos, order + [k], clock, advisorIds)
  {
    var o := order + [k];
    forall j | 0 <= j < |o|
      ensures o[j] < |infos| && ClientOfLead(after[|o| - 1 - j], infos[o[j]], clock(o[j]), advisorIds)
    {
      if j < |order| {
        assert o[j] == order[j];
        assert after[|o| - 1 - j] == before[|order| - 1 - j];
      }
    }
  }

  /** Every imported client is a new lead tagged as coming from the ads platform. */
  lemma ImportsAheadShape(clients: seq<Client>, infos: seq<LeadInfo>, order: seq<nat>,
                          clock: nat -> nat, advisorIds: set<string>)
    requires ImportsAhead(clients, infos, order, clock, advisorIds)
    ensures forall i :: 0 <= i < |order| ==> clients[i].status == NewLead && clients[i].tags == ["Meta Lead"]
  {
    forall i | 0 <= i < |order| ensures clients[i].status == NewLead && clients[i].tags == ["Meta Lead"] {
      var j := |order| - 1 - i;
      assert ClientOfLead(clients[|order| - 1 - j], infos[order[j]], clock(order[j]), advisorIds);
    }
  }

  /**
   * One import of the loop: the contact data extracted from a lead are
   * handed to the store; `ok` says whether a client was created.
   */
  method ImportOne(store: CrmStore, leadInfo: LeadInfo, now: nat) returns (ok: bool)
    requires store.Valid()
    modifies store
    ensures store.Valid() && store.users == old(store.users)
    ensures ok <==> leadInfo.leadId !in old(store.importedLeadIds) && |Advisors(old(store.users))| > 0
    ensures ok ==>
      && |store.clients| == |old(store.clients)| + 1
      && store.clients[1..] == old(store.clients)
      && ClientOfLead(store.clients[0], leadInfo, now, AdvisorIds(old(store.users)))
      && (forall x :: x in store.importedLeadIds <==> x in old(store.importedLeadIds) || x == leadInfo.leadId)
    ensures !ok ==> store.clients == old(store.clients) && store.importedLeadIds == old(store.importedLeadIds)
  {
    var r := store.AddClientFromMeta(leadInfo, now);
    ok := r.Ok?;
  }

  /**
   * The state of the import loop after the first `k` leads, with `ledger`
   * and `base` the ledger and the clients it started from and `infos` the
   * leads' extracted data: with advisors the ledger has gained the ids seen
   * so far and the clients of their first occurrences sit in front of
   * `base`, newest first; without advisors nothing has changed.
   */
  ghost predicate ImportProgress(clients: seq<Client>, ledgerNow: seq<string>, base: seq<Client>,
                                 ledger: seq<string>, leads: seq<MetaLead>, infos: seq<LeadInfo>,
                                 k: nat, count: nat, hasAdvisors: bool,
                                 clock: nat -> nat, advisorIds: set<string>)
  {
    && k <= |leads| == |infos|
    && |clients| == |base| + count && clients[count..] == base
    && (hasAdvisors ==>
          && count == |LeadIds(leads[..k])| == |FirstIndices(leads[..k])|
          && (forall x :: x in ledgerNow <==> x in ledger || x in LeadIds(leads[..k]))
          && ImportsAhead(clients, infos, FirstIndices(leads[..k]), clock, advisorIds))
    && (!hasAdvisors ==> count == 0 && forall x :: x in ledgerNow <==> x in ledger)
  }

  /** A lead whose id is new, imported with advisors available, advances the loop by one client. */
  lemma ProgressOnImport(clients: seq<Client>, clients': seq<Client>, ledgerNow: seq<string>, ledgerNow': seq<string>,
                         base: seq<Client>, ledger: seq<string>, leads: seq<MetaLead>, infos: seq<LeadInfo>,
                         k: nat, count: nat, clock: nat -> nat, advisorIds: set<string>)
    requires ImportProgress(clients, ledgerNow, base, ledger, leads, infos, k, count, true, clock, advisorIds)
    requires k < |leads| && leads[k].id !in ledgerNow
    requires |clients'| == |clients| + 1 && clients'[1..] == clients
    requires ClientOfLead(clients'[0], infos[k], clock(k), advisorIds)
    requires forall x :: x in ledgerNow' <==> x in ledgerNow || x == leads[k].id
    ensures ImportProgress(clients', ledgerNow', base, ledger, leads, infos, k + 1, count + 1, true, clock, advisorIds)
  {
    assert leads[..k + 1] == leads[..k] + [leads[k]];
    LeadIdsSnoc(leads[..k], leads[k]);
    FirstIndicesSnoc(leads, k);
    assert leads[k].id !in LeadIds(leads[..k]);
    ImportsAheadStep(clients, clients', infos, FirstIndices(leads[..k]), k, clock, advisorIds);
    PrependKeepsBase(clients, clients', count, base);
  }

  /**
   * A lead that is refused, its id already recorded or no advisor there,
   * advances the loop without changing anything, given that no id of the
   * batch was in the ledger at the start.
   */
  lemma ProgressOnSkip(clients: seq<Client>, ledgerNow: seq<string>, base: seq<Client>, ledger: seq<string>,
                       leads: seq<MetaLead>, infos: seq<LeadInfo>, k: nat, count: nat, hasAdvisors: bool,
                       clock: nat -> nat, advisorIds: set<string>)
    requires ImportProgress(clients, ledgerNow, base, ledger, leads, infos, k, count, hasAdvisors, clock, advisorIds)
    requires k < |leads| && leads[k].id !in ledger
    requires leads[k].id in ledgerNow || !hasAdvisors
    ensures ImportProgress(clients, ledgerNow, base, ledger, leads, infos, k + 1, count, hasAdvisors, clock, advisorIds)
  {
    if hasAdvisors {
      assert leads[..k + 1] == leads[..k] + [leads[k]];
      LeadIdsSnoc(leads[..k], leads[k]);
      FirstIndicesSnoc(leads, k);
      assert leads[k].id in LeadIds(leads[..k]);
      assert LeadIds(leads[..k + 1]) == LeadIds(leads[..k]);
    }
  }

  /** Whatever a turn's outcome, the loop advances to the next lead. */
  lemma ProgressAfterTurn(ok: bool, clients: seq<Client>, clients': seq<Client>, ledgerNow: seq<string>,
                          ledgerNow': seq<string>, base: seq<Client>, ledger: seq<string>, leads: seq<MetaLead>,
                          infos: seq<LeadInfo>, k: nat, count: nat, hasAdvisors: bool,
                          clock: nat -> nat, advisorIds: set<string>)
    requires ImportProgress(clients, ledgerNow, base, ledger, leads, infos, k, count, hasAdvisors, clock, advisorIds)
    requires k < |leads| && leads[k].id !in ledger
    requires ok <==> leads[k].id !in ledgerNow && hasAdvisors
    requires ok ==>
      && |clients'| == |clients| + 1 && clients'[1..] == clients
      && ClientOfLead(clients'[0], infos[k], clock(k), advisorIds)
      && (forall x :: x in ledgerNow' <==> x in ledgerNow || x == leads[k].id)
    requires !ok ==> clients' == clients && ledgerNow' == ledgerNow
    ensures ImportProgress(clients', ledgerNow', base, ledger, leads, infos, k + 1, if ok then count + 1 else count,
                           hasAdvisors, clock, advisorIds)
  {
    if ok {
      ProgressOnImport(clients, clients', ledgerNow, ledgerNow', base, ledger, leads, infos, k, count, clock, advisorIds);
    } else {
      ProgressOnSkip(clients, ledgerNow, base, ledger, leads, infos, k, count, hasAdvisors, clock, advisorIds);
    }
  }

  /** One turn of the import loop: the lead at position `k` is extracted and imported. */
  method ImportTurn(store: CrmStore, newLeads: seq<MetaLead>, k: nat, count: nat, clock: nat -> nat,
                    ghost ledger: seq<string>, ghost base: seq<Client>,
                    ghost hasAdvisors: bool, ghost advisorIds: set<string>)
    returns (count': nat)
    requires store.Valid()
    requires hasAdvisors == (|Advisors(store.users)| > 0) && advisorIds == AdvisorIds(store.users)
    requires k < |newLeads| && newLeads[k].id !in ledger
    requires ImportProgress(store.clients, store.importedLeadIds, base, ledger, newLeads, LeadInfos(newLeads),
                            k, count, hasAdvisors, clock, advisorIds)
    modifies store
    ensures store.Valid() && store.users == old(store.users)
    ensures ImportProgress(store.clients, store.importedLeadIds, base, ledger, newLeads, LeadInfos(newLeads),
                           k + 1, count', hasAdvisors, clock, advisorIds)
  {
    ghost var before := store.clients;
    ghost var ledgerBefore := store.importedLeadIds;
    ghost var infos := LeadInfos(newLeads);
    var leadInfo := ExtractLeadInfo(newLeads[k]);
    assert infos[k] == leadInfo;
    var ok := ImportOne(store, leadInfo, clock(k));
    ProgressAfterTurn(ok, before, store.clients, ledgerBefore, store.importedLeadIds, base, ledger,
                      newLeads, infos, k, count, hasAdvisors, clock, advisorIds);
    count' := if ok then count + 1 else count;
  }

  /** When every lead has had its turn, the progress is the outcome of the whole batch. */
  lemma ProgressDone(clients: seq<Client>, ledgerNow: seq<string>, base: seq<Client>, ledger: seq<string>,
                     leads: seq<MetaLead>, infos: seq<LeadInfo>, count: nat, hasAdvisors: bool,
                     clock: nat -> nat, advisorIds: set<string>)
    requires ImportProgress(clients, ledgerNow, base, ledger, leads, infos, |leads|, count, hasAdvisors, clock, advisorIds)
    ensures var imported := if hasAdvisors then LeadIds(leads) else {};
      && count == |imported|
      && (forall x :: x in ledgerNow <==> x in ledger || x in imported)
    ensures |clients| == |base| + count && clients[count..] == base
    ensures forall i :: 0 <= i < count ==> clients[i].status == NewLead && clients[i].tags == ["Meta Lead"]
    ensures hasAdvisors ==>
      count == |FirstIndices(leads)| && ImportsAhead(clients, infos, FirstIndices(leads), clock, advisorIds)
  {
    assert leads[..|leads|] == leads;
    if hasAdvisors {
      ImportsAheadShape(clients, infos, FirstIndices(leads), clock, advisorIds);
    }
  }

  /**
   * The import loop: each lead is imported in turn, and one that fails is
   * skipped. Every lead id is new to the ledger when the loop starts, so
   * an import fails only for want of an advisor or because the same id
   * came earlier in the batch; the successes are the first occurrences of
   * the distinct ids, and the clients they become end up newest first.
   */
  method ImportLeads(store: CrmStore, newLeads: seq<MetaLead>, clock: nat -> nat) returns (successCount: nat)
    requires store.Valid()
    requires forall i :: 0 <= i < |newLeads| ==> newLeads[i].id !in store.importedLeadIds
    modifies store
    ensures store.Valid() && store.users == old(store.users)
    ensures var imported := if |Advisors(old(store.users))| > 0 then LeadIds(newLeads) else {};
      && successCount == |imported|
      && (forall x :: x in store.importedLeadIds <==> x in old(store.importedLeadIds) || x in imported)
    ensures |store.clients| == |old(store.clients)| + successCount
    ensures store.clients[successCount..] == old(store.clients)
    ensures forall i :: 0 <= i < successCount ==>
      store.clients[i].status == NewLead && store.clients[i].tags == ["Meta Lead"]
    ensures |Advisors(old(store.users))| > 0 ==>
      && successCount == |FirstIndices(newLeads)|
      && ImportsAhead(store.clients, LeadInfos(newLeads), FirstIndices(newLeads), clock, AdvisorIds(old(store.users)))
  {
    ghost var ledger := store.importedLeadIds;
    ghost var hasAdvisors := |Advisors(store.users)| > 0;
    ghost var advisorIds := AdvisorIds(store.users);
    ghost var infos := LeadInfos(newLeads);
    successCount := 0;
    var k := 0;
    while k < |newLeads|
      invariant store.Valid() && store.users == old(store.users)
      invariant ImportProgress(store.clients, store.importedLeadIds, old(store.clients), ledger,
                               newLeads, infos, k, successCount, hasAdvisors, clock, advisorIds)
    {
      successCount := ImportTurn(store, newLeads, k, successCount, clock,
                                 ledger, old(store.clients), hasAdvisors, advisorIds);
      k := k + 1;
    }
    ProgressDone(store.clients, store.importedLeadIds, old(store.clients), ledger,
                 newLeads, infos, successCount, hasAdvisors, clock, advisorIds);
  }

  /**
   * What `ImportsAhead` says of a whole batch, in the terms of the leads:
   * reading the clients from the last import back, the j-th is the client
   * made from the j-th first occurrence of an id, those occurrences come in
   * the order of the batch, no two share an id, and together they cover
   * every id of the batch.
   */
  lemma ImportsOfFirstOccurrences(clients: seq<Client>, leads: seq<MetaLead>, clock: nat -> nat,
                                  advisorIds: set<string>)
    requires ImportsAhead(clients, LeadInfos(leads), FirstIndices(leads), clock, advisorIds)
    ensures var f := FirstIndices(leads);
      && FirstOccurrencesInOrder(leads, f)
      && (forall a, b :: 0 <= a < b < |f| ==> leads[f[a]].id != leads[f[b]].id)
      && IdsAt(leads, f) == LeadIds(leads)
      && forall j :: 0 <= j < |f| ==>
           ClientOfLead(clients[|f| - 1 - j], ExtractLeadInfo(leads[f[j]]), clock(f[j]), advisorIds)
  {
    var f := FirstIndices(leads);
    var infos := LeadInfos(leads);
    FirstIndicesInOrder(leads);
    FirstIndicesDistinct(leads);
    FirstIndicesCover(leads);
    forall j | 0 <= j < |f|
      ensures ClientOfLead(clients[|f| - 1 - j], ExtractLeadInfo(leads[f[j]]), clock(f[j]), advisorIds)
    {
      assert infos[f[j]] == ExtractLeadInfo(leads[f[j]]);
    }
  }

  /**
   * Synchronises the leads of the selected form. `fetched` is the answer of
   * the ads platform, and `clock(k)` the time of the k-th import. Leads
   * already in the ledger are dropped once, before the imports start.
   */
  method HandleSyncLeads(store: CrmStore, selectedFormId: Option<string>,
                         fetched: Result<seq<MetaLead>, string>, clock: nat -> nat)
    returns (outcome: SyncOutcome)
    requires store.Valid()
    modifies store
    ensures store.Valid() && store.users == old(store.users)
    ensures !IsSelected(selectedFormId) ==>
      outcome == NoFormSelected && store.State() == old(store.State())
    ensures IsSelected(selectedFormId) && fetched.Err? ==>
      outcome == SyncFailed(fetched.error) && store.State() == old(store.State())
    ensures IsSelected(selectedFormId) && fetched.Ok? && |NewLeads(fetched.value, old(store.importedLeadIds))| == 0 ==>
      outcome == NoNewLeads && store.State() == old(store.State())
    ensures IsSelected(selectedFormId) && fetched.Ok? && |NewLeads(fetched.value, old(store.importedLeadIds))| > 0 ==>
      var newLeads := NewLeads(fetched.value, old(store.importedLeadIds));
      var imported := if |Advisors(old(store.users))| > 0 then LeadIds(newLeads) else {};
      && outcome.Imported?
      && outcome.successCount == |imported| <= |newLeads|
      && |store.clients| == |old(store.clients)| + outcome.successCount
      && store.clients[outcome.successCount..] == old(store.clients)
      && (forall i :: 0 <= i < outcome.successCount ==>
            store.clients[i].status == NewLead && store.clients[i].tags == ["Meta Lead"])
      && (forall x :: x in store.importedLeadIds <==> x in old(store.importedLeadIds) || x in imported)
      && (|Advisors(old(store.users))| > 0 ==>
            ImportsAhead(store.clients, LeadInfos(newLeads), FirstIndices(newLeads), clock, AdvisorIds(old(store.users))))
  {
    if !IsSelected(selectedFormId) {
      return NoFormSelected;
    }
    if fetched.Err? {
      return SyncFailed(fetched.error);
    }
    var leads := fetched.value;
    var importedIds := store.importedLeadIds;
    var newLeads := NewLeads(leads, importedIds);
    if |newLeads| == 0 {
      return NoNewLeads;
    }
    var successCount := ImportLeads(store, newLeads, clock);
    LeadIdsBound(newLeads);
    outcome := Imported(successCount);
  }
}
