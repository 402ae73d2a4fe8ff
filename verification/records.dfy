/** The documents the server keeps in its collections, the error shape of its
    HTTP exceptions, and the matchers its queries use. Identifiers, dates and
    free text are strings; money (a float in the server) is carried here as
    an integer number of cents and is only ever copied or summed. */
module Records {

  datatype Option<T> = None | Some(value: T) {
    function GetOr(default: T): T {
      if Some? then value else default
    }
  }

  /** An `HTTPException(status_code, detail)`. */
  datatype Error = Error(code: int, detail: string)

  datatype Result<T> = Ok(value: T) | Err(error: Error)

  /** What the JWT library makes of a bearer token. */
  datatype Claims = Decoded(userId: string) | Expired | Malformed

  datatype User = User(
    id: string, name: string, email: string, role: string,
    company: string, department: string, subscription: string)

  /** The body of a lead create or update request. */
  datatype LeadFields = LeadFields(name: string, email: string, company: string, status: string, value: int)

  datatype Lead = Lead(id: string, fields: LeadFields, assignedTo: string, createdBy: string, tenant: string)

  datatype TaskFields = TaskFields(
    title: string, description: string, status: string, priority: string,
    project: string, dueDate: Option<string>)

  datatype Task = Task(id: string, fields: TaskFields, assignedTo: string, createdBy: string, tenant: string)

  /** A task update request: every field may be left out (None). */
  datatype TaskPatch = TaskPatch(
    title: Option<string>, description: Option<string>, status: Option<string>,
    priority: Option<string>, project: Option<string>, dueDate: Option<string>,
    assignedTo: Option<string>)

  datatype ProjectFields = ProjectFields(
    name: string, description: string, value: int,
    clientName: string, clientEmail: string, status: string)

  datatype Project = Project(id: string, fields: ProjectFields, createdBy: string, tenant: string)

  /** A project update request: every field may be left out (None). */
  datatype ProjectPatch = ProjectPatch(
    name: Option<string>, description: Option<string>, value: Option<int>,
    clientName: Option<string>, clientEmail: Option<string>, status: Option<string>)

  datatype Leave = Leave(
    id: string, userId: string, userName: string, kind: string,
    startDate: string, endDate: string, reason: string,
    status: string, approvedBy: Option<string>, tenant: string)

  datatype Expense = Expense(
    id: string, title: string, amount: int, category: string, status: string,
    submittedBy: string, submittedByName: string, tenant: string)

  datatype Item = Item(description: string, quantity: int, rate: int)

  datatype Invoice = Invoice(
    id: string, number: string, clientName: string, clientEmail: string,
    items: seq<Item>, total: int, status: string, dueDate: string,
    createdBy: string, tenant: string)

  datatype Idea = Idea(
    id: string, title: string, description: string, category: string, priority: string,
    votes: int, voters: seq<string>, status: string, createdBy: string, createdByName: string)

  datatype Notification = Notification(id: string, userId: string, kind: string, title: string, read: bool)

  datatype Transaction = Transaction(
    id: string, userId: string, sessionId: string, amount: int,
    currency: string, plan: string, paymentStatus: string)

  datatype DomainRecord = DomainRecord(id: string, domain: string, ownerEmail: string, status: string)

  datatype PaymentMethod = PaymentMethod(
    id: string, userId: string, cardNumber: string, expiry: string,
    cardholderName: string, kind: string)

  /** The whole database: one sequence per collection, in insertion order. */
  datatype Database = Database(
    users: seq<User>, leads: seq<Lead>, tasks: seq<Task>, projects: seq<Project>,
    leaves: seq<Leave>, expenses: seq<Expense>, invoices: seq<Invoice>, ideas: seq<Idea>,
    notifications: seq<Notification>, transactions: seq<Transaction>,
    domains: seq<DomainRecord>, paymentMethods: seq<PaymentMethod>)

  // Query filters, one per `{"field": value, ...}` document the handlers pass to MongoDB.

  function UserWithId(id: string): User -> bool { (u: User) => u.id == id }
  function UserWithEmail(email: string): User -> bool { (u: User) => u.email == email }
  function LeadWithId(id: string): Lead -> bool { (l: Lead) => l.id == id }
  function LeadInTenant(id: string, tenant: string): Lead -> bool { (l: Lead) => l.id == id && l.tenant == tenant }
  function TaskWithId(id: string): Task -> bool { (t: Task) => t.id == id }
  function TaskInTenant(id: string, tenant: string): Task -> bool { (t: Task) => t.id == id && t.tenant == tenant }
  function ProjectWithId(id: string): Project -> bool { (p: Project) => p.id == id }
  function ProjectInTenant(id: string, tenant: string): Project -> bool { (p: Project) => p.id == id && p.tenant == tenant }
  function LeaveWithId(id: string): Leave -> bool { (l: Leave) => l.id == id }
  function LeaveInTenant(id: string, tenant: string): Leave -> bool { (l: Leave) => l.id == id && l.tenant == tenant }
  function IdeaWithId(id: string): Idea -> bool { (i: Idea) => i.id == id }
  function NotificationOf(id: string, userId: string): Notification -> bool {
    (n: Notification) => n.id == id && n.userId == userId
  }
  function TransactionWithSession(sessionId: string): Transaction -> bool {
    (t: Transaction) => t.sessionId == sessionId
  }
  function DomainNamed(name: string): DomainRecord -> bool { (d: DomainRecord) => d.domain == name }
}
