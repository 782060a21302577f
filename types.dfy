/** The records and enumerations of the CRM (types.ts). */
module Types {

  import opened Wrappers

  /** The six funnel stages; `StageValue` gives the string each one stands for. */
  datatype ProcessStage = NewLead | Contacted | ProposalSent | InProgress | ReadyForSignature | Completed

  function StageValue(s: ProcessStage): string
  {
    match s
    case NewLead => "Nuevo Lead"
    case Contacted => "Contactado"
    case ProposalSent => "Propuesta Enviada"
    case InProgress => "En Proceso"
    case ReadyForSignature => "Listo para Firma"
    case Completed => "Completado"
  }

  /** The string values of the stages are pairwise distinct. */
  lemma StageValueInjective(a: ProcessStage, b: ProcessStage)
    ensures StageValue(a) == StageValue(b) <==> a == b
  {
  }

  /** A timestamped note; dates are milliseconds since the epoch. */
  datatype Note = Note(id: string, date: int, text: string, author: string)

  datatype Client = Client(
    id: string,
    name: string,
    email: string,
    phone: string,
    service: string,
    status: ProcessStage,
    contactDate: int,
    lastUpdate: int,
    assignedTo: string,  // the id of a user
    tags: seq<string>,
    notes: seq<Note>)

  datatype Role = Admin | Advisor

  datatype WhatsappContact = WhatsappContact(number: string, enabled: bool)

  datatype User = User(id: string, name: string, role: Role, email: string, whatsapp: Option<WhatsappContact>)

  /** Some user in `users` has the id `id`. */
  predicate HasUserId(users: seq<User>, id: string)
  {
    exists j :: 0 <= j < |users| && users[j].id == id
  }

  /** A user without its id (`Omit<User, 'id'>`), as the user form submits it. */
  datatype UserData = UserData(name: string, email: string, role: Role, whatsapp: Option<WhatsappContact>)

  datatype NotificationType = Success | Error | Info

  datatype NotificationMessage = NotificationMessage(id: int, message: string, kind: NotificationType)

  /** One answer of a lead form, as the ads platform reports it. */
  datatype MetaLeadFieldData = MetaLeadFieldData(name: string, values: seq<string>)

  datatype MetaLead = MetaLead(id: string, createdTime: string, fieldData: seq<MetaLeadFieldData>)

  /** What the lead extraction hands to the store's import. */
  datatype LeadInfo = LeadInfo(name: string, email: string, phone: string, leadId: string)
}
