/** The seed data and the funnel order (src/constants.ts). */
module Constants {

  import opened Wrappers
  import opened Types
  import opened Seqs

  /** The id of the main administrator, whom no one may demote or delete. */
  const MAIN_ADMIN_ID: string := "user-1"

  const INITIAL_USERS: seq<User> := [
    User("user-1", "Admin", Admin, "admin@globallaw.com", None),
    User("user-2", "Ana García", Advisor, "ana.garcia@globallaw.com", Some(WhatsappContact("+15551234567", true))),
    User("user-3", "Carlos Ruiz", Advisor, "carlos.ruiz@globallaw.com", Some(WhatsappContact("+15557654321", false)))
  ]

  /**
   * The seed clients. The note of the first one is dated when the module
   * is loaded (`new Date()`), so that instant is a parameter.
   */
  function InitialClients(loadTime: int): seq<Client>
  {
    [
      Client("client-1", "Innovate Corp", "contact@innovatecorp.com", "555-0101",
        "Creación de Empresa LLC", NewLead, 1720602000000, 1720602000000, "user-2",
        ["Tech", "High-Priority"],
        [Note("note-1", loadTime, "Lead from Meta Ads. Interested in Florida LLC.", "System")]),
      Client("client-2", "Garcia Consulting", "info@garciaconsulting.net", "555-0102",
        "Servicio Contable", Contacted, 1720449000000, 1720522800000, "user-2",
        ["Consulting"],
        [Note("note-2", 1720522800000, "Initial call completed. Sent follow-up email with pricing.", "Ana García")]),
      Client("client-3", "Global Exports", "sales@globalexports.io", "555-0103",
        "Creación de Empresa LLC", ProposalSent, 1719309600000, 1720195200000, "user-3",
        ["Import/Export"],
        [Note("note-3", 1720195200000, "Proposal sent. Follow up next week.", "Carlos Ruiz")]),
      Client("client-4", "Creative Solutions", "hello@creativesolutions.dev", "555-0104",
        "Agente Registrado", InProgress, 1715770800000, 1720776600000, "user-3",
        ["Design", "Delaware"],
        [Note("note-4", 1720776600000, "Documents submitted to the state. Awaiting confirmation.", "Carlos Ruiz")]),
      Client("client-5", "USA Market Access", "contact@usamarket.com", "555-0105",
        "Creación de Empresa LLC", ReadyForSignature, 1718010000000, 1720706400000, "user-2",
        [],
        [Note("note-5", 1720706400000, "Final documents prepared and sent to client for electronic signature.", "Ana García")]),
      Client("client-6", "Tech Pioneers Inc.", "founders@techpioneers.com", "555-0106",
        "Creación de Empresa LLC", Completed, 1711965600000, 1718452800000, "user-3",
        ["Startup", "Wyoming"],
        [Note("note-6", 1718452800000, "Company formation complete. All documents delivered.", "Carlos Ruiz")])
    ]
  }

  /** The funnel stages in column and chart order. */
  const PROCESS_STAGES_ORDER: seq<ProcessStage> :=
    [NewLead, Contacted, ProposalSent, InProgress, ReadyForSignature, Completed]

  /** The clients whose status is `stage`, in list order (one funnel column). */
  function InStage(clients: seq<Client>, stage: ProcessStage): seq<Client>
  {
    Filter(clients, (c: Client) => c.status == stage)
  }

  /**
   * Every client is in exactly one stage, so the six stage lists together
   * hold as many clients as the whole list.
   */
  lemma {:induction false} StageCountsSum(clients: seq<Client>)
    ensures |InStage(clients, NewLead)| + |InStage(clients, Contacted)| + |InStage(clients, ProposalSent)|
      + |InStage(clients, InProgress)| + |InStage(clients, ReadyForSignature)| + |InStage(clients, Completed)|
      == |clients|
  {
    if |clients| > 0 {
      StageCountsSum(clients[1..]);
    }
  }

  /** Every stage appears exactly once in the order, NewLead first and Completed last. */
  lemma StageOrderIsComplete()
    ensures |PROCESS_STAGES_ORDER| == 6 && NoDuplicates(PROCESS_STAGES_ORDER)
    ensures forall s: ProcessStage :: s in PROCESS_STAGES_ORDER
    ensures PROCESS_STAGES_ORDER[0] == NewLead && PROCESS_STAGES_ORDER[5] == Completed
  {
    forall s: ProcessStage ensures s in PROCESS_STAGES_ORDER {
      match s
      case NewLead => assert PROCESS_STAGES_ORDER[0] == s;
      case Contacted => assert PROCESS_STAGES_ORDER[1] == s;
      case ProposalSent => assert PROCESS_STAGES_ORDER[2] == s;
      case InProgress => assert PROCESS_STAGES_ORDER[3] == s;
      case ReadyForSignature => assert PROCESS_STAGES_ORDER[4] == s;
      case Completed => assert PROCESS_STAGES_ORDER[5] == s;
    }
  }

  /** The seed users contain the main administrator with role Admin, and two advisors. */
  lemma InitialUsersShape()
    ensures exists i :: 0 <= i < |INITIAL_USERS| && INITIAL_USERS[i].id == MAIN_ADMIN_ID && INITIAL_USERS[i].role == Admin
    ensures INITIAL_USERS[1].role == Advisor && INITIAL_USERS[2].role == Advisor
  {
    assert INITIAL_USERS[0].id == MAIN_ADMIN_ID;
  }

  /** Every seed client is assigned to a seed user. */
  lemma InitialAssignmentsResolve(loadTime: int)
    ensures forall i :: 0 <= i < |InitialClients(loadTime)| ==>
      HasUserId(INITIAL_USERS, InitialClients(loadTime)[i].assignedTo)
  {
    var cs := InitialClients(loadTime);
    forall i | 0 <= i < |cs| ensures HasUserId(INITIAL_USERS, cs[i].assignedTo) {
      if i == 0 || i == 1 || i == 4 {
        assert INITIAL_USERS[1].id == cs[i].assignedTo;
      } else {
        assert INITIAL_USERS[2].id == cs[i].assignedTo;
      }
    }
  }

  /** Seed user ids and seed client ids are pairwise distinct, and every seed client has one note. */
  lemma InitialIdsDistinct(loadTime: int)
    ensures NoDuplicates(seq(|INITIAL_USERS|, i requires 0 <= i < |INITIAL_USERS| => INITIAL_USERS[i].id))
    ensures NoDuplicates(seq(|InitialClients(loadTime)|, i requires 0 <= i < |InitialClients(loadTime)| => InitialClients(loadTime)[i].id))
    ensures forall i :: 0 <= i < |InitialClients(loadTime)| ==> |InitialClients(loadTime)[i].notes| == 1
  {
  }
}
