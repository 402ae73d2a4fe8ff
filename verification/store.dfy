/** The server's handlers over its collections. `Store` holds one sequence per
    MongoDB collection; each method is one route: the gate first, then the
    checks in the order the route makes them, then the writes. The JWT
    library, the token signer, uuid4, the clock's date, `random.random()` and
    Stripe's answers are parameters. */
module Server {

  import opened Records
  import Text
  import Query
  import Access
  import Gate
  import Estimation
  import Domains
  import Invoicing
  import Ideas

  /** `SUBSCRIPTION_PLANS` prices, in cents. */
  const PlanPriceCents: map<string, nat> := map["free" := 0, "professional" := 2999, "enterprise" := 9999]

  /** A plan a checkout may be opened for: a known plan other than "free". */
  predicate PurchasablePlan(plan: string) {
    plan in PlanPriceCents && plan != "free"
  }

  /** The plans a checkout may be opened for: every priced plan but the free one. */
  lemma PurchasablePlans(plan: string)
    ensures PurchasablePlan(plan) <==> plan == "professional" || plan == "enterprise"
  {
  }

  /** The plan a paid checkout activates: the transaction's own plan, else the
      plan in Stripe's metadata, else "professional". */
  function ActivatedPlan(txn: Transaction, metadataPlan: Option<string>): (plan: string)
    ensures txn.plan != "" ==> plan == txn.plan
    ensures txn.plan == "" && metadataPlan.Some? ==> plan == metadataPlan.value
    ensures txn.plan == "" && metadataPlan.None? ==> plan == "professional"
  {
    if txn.plan != "" then txn.plan else metadataPlan.GetOr("professional")
  }

  const MaskPrefix: string := "**** **** **** "

  /** The stored form of a card number: only its last four characters survive. */
  function MaskCard(card: string): (m: string)
    ensures |m| == |MaskPrefix| + (if |card| < 4 then |card| else 4)
    ensures m[..|MaskPrefix|] == MaskPrefix
    ensures m[|MaskPrefix|..] == card[|card| - (|m| - |MaskPrefix|)..]
  {
    MaskPrefix + Text.LastFour(card)
  }

  /** `$set` of the fields a project update names: a field left out keeps its value. */
  function PatchProject(f: ProjectFields, p: ProjectPatch): (r: ProjectFields)
    ensures p == ProjectPatch(None, None, None, None, None, None) ==> r == f
    ensures p.name.Some? ==> r.name == p.name.value
    ensures p.name.None? ==> r.name == f.name
    ensures p.description.Some? ==> r.description == p.description.value
    ensures p.description.None? ==> r.description == f.description
    ensures p.value.Some? ==> r.value == p.value.value
    ensures p.value.None? ==> r.value == f.value
    ensures p.clientName.Some? ==> r.clientName == p.clientName.value
    ensures p.clientName.None? ==> r.clientName == f.clientName
    ensures p.clientEmail.Some? ==> r.clientEmail == p.clientEmail.value
    ensures p.clientEmail.None? ==> r.clientEmail == f.clientEmail
    ensures p.status.Some? ==> r.status == p.status.value
    ensures p.status.None? ==> r.status == f.status
  {
    ProjectFields(
      p.name.GetOr(f.name), p.description.GetOr(f.description), p.value.GetOr(f.value),
      p.clientName.GetOr(f.clientName), p.clientEmail.GetOr(f.clientEmail), p.status.GetOr(f.status))
  }

  /** Applying the same project update twice changes nothing the first did not. */
  lemma PatchProjectTwice(f: ProjectFields, p: ProjectPatch)
    ensures PatchProject(PatchProject(f, p), p) == PatchProject(f, p)
  {
  }

  /** `$set` of the fields a task update names; the tenant, id and creator never change. */
  function PatchTask(t: Task, p: TaskPatch): (r: Task)
    ensures r.id == t.id && r.tenant == t.tenant && r.createdBy == t.createdBy
    ensures p == TaskPatch(None, None, None, None, None, None, None) ==> r == t
    ensures r.fields.title == p.title.GetOr(t.fields.title)
    ensures r.fields.description == p.description.GetOr(t.fields.description)
    ensures r.fields.status == p.status.GetOr(t.fields.status)
    ensures r.fields.priority == p.priority.GetOr(t.fields.priority)
    ensures r.fields.project == p.project.GetOr(t.fields.project)
    ensures p.dueDate.Some? ==> r.fields.dueDate == p.dueDate
    ensures p.dueDate.None? ==> r.fields.dueDate == t.fields.dueDate
    ensures r.assignedTo == p.assignedTo.GetOr(t.assignedTo)
  {
    var f := t.fields;
    t.(fields := TaskFields(
         p.title.GetOr(f.title), p.description.GetOr(f.description), p.status.GetOr(f.status),
         p.priority.GetOr(f.priority), p.project.GetOr(f.project),
         if p.dueDate.Some? then p.dueDate else f.dueDate),
       assignedTo := p.assignedTo.GetOr(t.assignedTo))
  }

  /** Applying the same task update twice changes nothing the first did not. */
  lemma PatchTaskTwice(t: Task, p: TaskPatch)
    ensures PatchTask(PatchTask(t, p), p) == PatchTask(t, p)
  {
  }

  /** The paid invoice a project's completion generates. */
  function CompletionInvoice(project: Project, id: string, number: string, today: string, creator: string, tenant: string): (inv: Invoice)
    ensures inv.total == Invoicing.Total(inv.items) == project.fields.value
    ensures inv.status == "paid" && inv.number == number && inv.tenant == tenant
    ensures inv.clientName == project.fields.clientName && inv.clientEmail == project.fields.clientEmail
  {
    var items := [Item("Project Completion: " + project.fields.name, 1, project.fields.value)];
    assert Invoicing.Total(items) == 1 * project.fields.value + Invoicing.Total([]);
    Invoice(id, number, project.fields.clientName, project.fields.clientEmail, items,
            project.fields.value, "paid", today, creator, tenant)
  }

  /** The tasks `analyze_project` estimates: the caller's tenant's tasks of the
      named project. A request without a project name matches no task. */
  function InProject(tenant: string, project: Option<string>): Task -> bool {
    (t: Task) => t.tenant == tenant && project == Some(t.fields.project)
  }

  /** A task is estimated exactly when it belongs to the caller's tenant and
      carries the requested project name; with no name, none is. */
  lemma InProjectMatches(tenant: string, project: Option<string>, t: Task)
    ensures project.None? ==> !InProject(tenant, project)(t)
    ensures project.Some? ==> (InProject(tenant, project)(t) <==> t.tenant == tenant && t.fields.project == project.value)
  {
  }

  /** The duplicate checks look up the normalised email, but an invited user is
      stored with the email as typed: a stored email with an upper-case letter
      is never matched, so it blocks neither a registration nor a second invitation. */
  lemma MixedCaseEmailNeverMatches(u: User, email: string, k: nat)
    requires k < |u.email| && Text.IsUpper(u.email[k])
    ensures !UserWithEmail(Text.NormaliseEmail(email))(u)
  {
    var n := Text.NormaliseEmail(email);
    if k < |n| {
      assert !Text.IsUpper(n[k]);
    }
  }

  /** Example of the lemma above: a user invited as "Bob@x.io" does not stop "bob@x.io" from registering. */
  lemma InvitedBobDoesNotBlockBob(u: User)
    requires u.email == "Bob@x.io"
    ensures Query.FindOne([u], UserWithEmail(Text.NormaliseEmail("bob@x.io"))).None?
  {
    MixedCaseEmailNeverMatches(u, "bob@x.io", 0);
  }

  /** No registered domain has the name `name`. */
  predicate Free(domains: seq<DomainRecord>, name: string) {
    forall k :: 0 <= k < |domains| ==> domains[k].domain != name
  }

  /** What Stripe's checkout-session creation answers. */
  datatype CheckoutSession = CheckoutSession(url: string, sessionId: string)

  /** What Stripe's checkout-status query answers. */
  datatype StripeStatus = StripeStatus(
    status: string, paymentStatus: string, amountTotal: int, currency: string, metadataPlan: Option<string>)

  /** A verified webhook event. */
  datatype WebhookEvent = WebhookEvent(sessionId: string, paymentStatus: string)

  /** The answer to a registration. */
  datatype Session = Session(token: string, user: User)

  class Store {

    var users: seq<User>
    var leads: seq<Lead>
    var tasks: seq<Task>
    var projects: seq<Project>
    var leaves: seq<Leave>
    var expenses: seq<Expense>
    var invoices: seq<Invoice>
    var ideas: seq<Idea>
    var notifications: seq<Notification>
    var transactions: seq<Transaction>
    var domains: seq<DomainRecord>
    var paymentMethods: seq<PaymentMethod>

    /** The JWT library's verdict on a token (signature and expiry included). */
    const decode: string -> Claims
    /** `create_token(user_id, role)`. */
    const sign: (string, string) -> string

    /** The whole database. */
    function Db(): Database
      reads this
    {
      Database(users, leads, tasks, projects, leaves, expenses, invoices, ideas,
               notifications, transactions, domains, paymentMethods)
    }

    /** What every handler preserves: idea tallies agree with their voters, and
        invoice numbers follow each tenant's invoice count. */
    ghost predicate Valid()
      reads this
    {
      Ideas.AllTallied(ideas) && Invoicing.Numbered(invoices)
    }

    constructor(decode: string -> Claims, sign: (string, string) -> string)
      ensures Valid()
      ensures Db() == Database([], [], [], [], [], [], [], [], [], [], [], [])
      ensures this.decode == decode && this.sign == sign
    {
      this.decode := decode;
      this.sign := sign;
      users, leads, tasks, projects, leaves, expenses := [], [], [], [], [], [];
      invoices, ideas, notifications, transactions, domains, paymentMethods := [], [], [], [], [], [];
    }

    /** `Depends(get_current_user)`. */
    function Caller(header: string): Result<User>
      reads this
    {
      Gate.CurrentUser(users, decode, header)
    }

    /** `Depends(require_roles(*roles))`. */
    function Authorized(header: string, roles: seq<string>): Result<User>
      reads this
    {
      Gate.Authorize(users, decode, header, roles)
    }

    /** `insert_one` into the invoices, for an invoice numbered after its tenant's count. */
    method InsertInvoice(invoice: Invoice)
      requires Valid()
      requires invoice.number == Invoicing.InvoiceNumber(Invoicing.TenantCount(invoices, invoice.tenant))
      modifies this
      ensures Valid()
      ensures Db() == old(Db()).(invoices := old(invoices) + [invoice])
    {
      Invoicing.NumberedAppend(invoices, invoice);
      invoices := invoices + [invoice];
    }

    // ---------------------------------------------------------------- listings

    function GetLeads(header: string): (r: Result<seq<Lead>>)
      reads this
      ensures Caller(header).Err? ==> r == Err(Caller(header).error)
      ensures Caller(header).Ok? ==>
        && r.Ok?
        && forall l :: l in r.value <==> l in leads && l.tenant == Caller(header).value.company
    {
      match Caller(header)
      case Err(e) => Err(e)
      case Ok(u) => Ok(Query.Filter(leads, (l: Lead) => l.tenant == u.company))
    }

    function GetTasks(header: string): (r: Result<seq<Task>>)
      reads this
      ensures Caller(header).Err? ==> r == Err(Caller(header).error)
      ensures Caller(header).Ok? ==>
        && r.Ok?
        && forall t :: t in r.value <==> t in tasks && t.tenant == Caller(header).value.company
    {
      match Caller(header)
      case Err(e) => Err(e)
      case Ok(u) => Ok(Query.Filter(tasks, (t: Task) => t.tenant == u.company))
    }

    function GetProjects(header: string): (r: Result<seq<Project>>)
      reads this
      ensures Caller(header).Err? ==> r == Err(Caller(header).error)
      ensures Caller(header).Ok? ==>
        && r.Ok?
        && forall p :: p in r.value <==> p in projects && p.tenant == Caller(header).value.company
    {
      match Caller(header)
      case Err(e) => Err(e)
      case Ok(u) => Ok(Query.Filter(projects, (p: Project) => p.tenant == u.company))
    }

    function GetInvoices(header: string): (r: Result<seq<Invoice>>)
      reads this
      ensures Caller(header).Err? ==> r == Err(Caller(header).error)
      ensures Caller(header).Ok? ==>
        && r.Ok?
        && forall i :: i in r.value <==> i in invoices && i.tenant == Caller(header).value.company
    {
      match Caller(header)
      case Err(e) => Err(e)
      case Ok(u) => Ok(Query.Filter(invoices, Invoicing.OfTenant(u.company)))
    }

    /** Leave listing: a tenant admin sees all of their company's leaves, anyone
        else only their own, and nobody sees another company's. */
    function GetLeaves(header: string): (r: Result<seq<Leave>>)
      reads this
      ensures Caller(header).Err? ==> r == Err(Caller(header).error)
      ensures Caller(header).Ok? ==> r.Ok?
      ensures r.Ok? ==> forall l :: l in r.value ==> l in leaves && l.tenant == Caller(header).value.company
      ensures r.Ok? && Caller(header).value.role !in Access.TenantAdmins ==>
        forall l :: l in r.value <==> l in leaves && l.tenant == Caller(header).value.company && l.userId == Caller(header).value.id
      ensures r.Ok? && Caller(header).value.role in Access.TenantAdmins ==>
        forall l :: l in r.value <==> l in leaves && l.tenant == Caller(header).value.company
    {
      match Caller(header)
      case Err(e) => Err(e)
      case Ok(u) => Ok(Query.Filter(leaves, Access.LeaveFilter(u)))
    }

    /** Expense listing: as for leaves, with the submitter in place of the owner. */
    function GetExpenses(header: string): (r: Result<seq<Expense>>)
      reads this
      ensures Caller(header).Err? ==> r == Err(Caller(header).error)
      ensures Caller(header).Ok? ==> r.Ok?
      ensures r.Ok? ==> forall e :: e in r.value ==> e in expenses && e.tenant == Caller(header).value.company
      ensures r.Ok? && Caller(header).value.role !in Access.TenantAdmins ==>
        forall e :: e in r.value <==>
          e in expenses && e.tenant == Caller(header).value.company && e.submittedBy == Caller(header).value.id
      ensures r.Ok? && Caller(header).value.role in Access.TenantAdmins ==>
        forall e :: e in r.value <==> e in expenses && e.tenant == Caller(header).value.company
    {
      match Caller(header)
      case Err(e) => Err(e)
      case Ok(u) => Ok(Query.Filter(expenses, Access.ExpenseFilter(u)))
    }

    /** User listing: super admins and main handlers of "Enterprise One" see every
        user, any other permitted caller the users of their own company. */
    function GetUsers(header: string): (r: Result<seq<User>>)
      reads this
      ensures var gate := Authorized(header, Access.UserManagers + ["server"]);
        && (gate.Err? ==> r == Err(gate.error))
        && (gate.Ok? ==> r.Ok?)
        && (gate.Ok? && gate.value.role in Access.CrossTenantRoles && gate.value.company == "Enterprise One" ==>
              r.value == users)
        && (gate.Ok? && !(gate.value.role in Access.CrossTenantRoles && gate.value.company == "Enterprise One") ==>
              forall u :: u in r.value <==> u in users && u.company == gate.value.company)
    {
      match Authorized(header, Access.UserManagers + ["server"])
      case Err(e) => Err(e)
      case Ok(actor) =>
        if actor.role in Access.CrossTenantRoles && actor.company == "Enterprise One" then Ok(users)
        else Ok(Query.Filter(users, (u: User) => u.company == actor.company))
    }

    // ------------------------------------------------------------------- leads

    method CreateLead(header: string, fields: LeadFields, id: string) returns (r: Result<Lead>)
      requires Valid()
      modifies this
      ensures Valid()
      ensures var gate := old(Authorized(header, Access.TenantAdmins));
        && (gate.Err? ==> r == Err(gate.error) && Db() == old(Db()))
        && (gate.Ok? ==>
              && r == Ok(Lead(id, fields, gate.value.id, gate.value.id, gate.value.company))
              && Db() == old(Db()).(leads := old(leads) + [r.value]))
    {
      var gate := Authorized(header, Access.TenantAdmins);
      if gate.Err? {
        return Err(gate.error);
      }
      var lead := Lead(id, fields, gate.value.id, gate.value.id, gate.value.company);
      leads := leads + [lead];
      r := Ok(lead);
    }

    /** `update_one` scoped to the caller's tenant; the answer is then re-read by id alone. */
    method UpdateLead(header: string, leadId: string, fields: LeadFields) returns (r: Result<Lead>)
      requires Valid()
      modifies this
      ensures Valid()
      ensures var gate := old(Authorized(header, Access.TenantAdmins));
        gate.Err? ==> r == Err(gate.error) && Db() == old(Db())
      ensures var gate := old(Authorized(header, Access.TenantAdmins));
        gate.Ok? ==>
          match Query.FirstIndex(old(leads), LeadInTenant(leadId, gate.value.company))
          case None => r == Err(Error(404, "Lead not found or access denied")) && Db() == old(Db())
          case Some(i) =>
            && Db() == old(Db()).(leads := old(leads)[i := old(leads)[i].(fields := fields)])
            && Query.FindOne(leads, LeadWithId(leadId)).Some?
            && r == Ok(Query.FindOne(leads, LeadWithId(leadId)).value)
    {
      var gate := Authorized(header, Access.TenantAdmins);
      if gate.Err? {
        return Err(gate.error);
      }
      var found := Query.FirstIndex(leads, LeadInTenant(leadId, gate.value.company));
      if found.None? {
        return Err(Error(404, "Lead not found or access denied"));
      }
      var i := found.value;
      leads := leads[i := leads[i].(fields := fields)];
      assert LeadWithId(leadId)(leads[i]);
      r := Ok(Query.FindOne(leads, LeadWithId(leadId)).value);
    }

    method DeleteLead(header: string, leadId: string) returns (r: Result<()>)
      requires Valid()
      modifies this
      ensures Valid()
      ensures var gate := old(Authorized(header, Access.TenantAdmins));
        gate.Err? ==> r == Err(gate.error) && Db() == old(Db())
      ensures var gate := old(Authorized(header, Access.TenantAdmins));
        gate.Ok? ==>
          match Query.FirstIndex(old(leads), LeadInTenant(leadId, gate.value.company))
          case None => r == Err(Error(404, "Lead not found or access denied")) && Db() == old(Db())
          case Some(i) => r == Ok(()) && Db() == old(Db()).(leads := old(leads)[..i] + old(leads)[i + 1..])
    {
      var gate := Authorized(header, Access.TenantAdmins);
      if gate.Err? {
        return Err(gate.error);
      }
      var found := Query.FirstIndex(leads, LeadInTenant(leadId, gate.value.company));
      if found.None? {
        return Err(Error(404, "Lead not found or access denied"));
      }
      leads := leads[..found.value] + leads[found.value + 1..];
      r := Ok(());
    }

    // ---------------------------------------------------------------- projects

    method CreateProject(header: string, fields: ProjectFields, id: string) returns (r: Result<Project>)
      requires Valid()
      modifies this
      ensures Valid()
      ensures var gate := old(Authorized(header, Access.ProjectEditors));
        && (gate.Err? ==> r == Err(gate.error) && Db() == old(Db()))
        && (gate.Ok? ==>
              && r == Ok(Project(id, fields, gate.value.id, gate.value.company))
              && Db() == old(Db()).(projects := old(projects) + [r.value]))
    {
      var gate := Authorized(header, Access.ProjectEditors);
      if gate.Err? {
        return Err(gate.error);
      }
      var project := Project(id, fields, gate.value.id, gate.value.company);
      projects := projects + [project];
      r := Ok(project);
    }

    /** A partial update. Completing a project that was not completed logs one
        paid invoice for its value and notifies the caller; the update itself is
        applied to the first project with the id, whatever its tenant. */
    method UpdateProject(header: string, projectId: string, patch: ProjectPatch,
                         invoiceId: string, notificationId: string, today: string)
      returns (r: Result<Project>)
      requires Valid()
      modifies this
      ensures Valid()
      ensures var gate := old(Authorized(header, Access.ProjectEditors));
        gate.Err? ==> r == Err(gate.error) && Db() == old(Db())
      ensures var gate := old(Authorized(header, Access.ProjectEditors));
        gate.Ok? && Query.FirstIndex(old(projects), ProjectInTenant(projectId, gate.value.company)).None? ==>
          r == Err(Error(404, "Project not found")) && Db() == old(Db())
      ensures var gate := old(Authorized(header, Access.ProjectEditors));
        gate.Ok? && Query.FirstIndex(old(projects), ProjectInTenant(projectId, gate.value.company)).Some? ==>
          && Query.FirstIndex(old(projects), ProjectWithId(projectId)).Some?
          && var j := Query.FirstIndex(old(projects), ProjectWithId(projectId)).value;
          && projects == old(projects)[j := old(projects)[j].(fields := PatchProject(old(projects)[j].fields, patch))]
          && r == Ok(projects[j])
      ensures var gate := old(Authorized(header, Access.ProjectEditors));
        gate.Ok? && Query.FirstIndex(old(projects), ProjectInTenant(projectId, gate.value.company)).Some? ==>
          var existing := old(projects)[Query.FirstIndex(old(projects), ProjectInTenant(projectId, gate.value.company)).value];
          var completes := patch.status == Some("completed") && existing.fields.status != "completed";
          var company := gate.value.company;
          var number := Invoicing.InvoiceNumber(Invoicing.TenantCount(old(invoices), company));
          && invoices == old(invoices) +
               (if completes then [CompletionInvoice(existing, invoiceId, number, today, gate.value.id, company)] else [])
          && notifications == old(notifications) +
               (if completes then [Notification(notificationId, gate.value.id, "system", "Project Revenue Logged", false)] else [])
          && Db() == old(Db()).(projects := projects, invoices := invoices, notifications := notifications)
    {
      var gate := Authorized(header, Access.ProjectEditors);
      if gate.Err? {
        return Err(gate.error);
      }
      var user := gate.value;
      var found := Query.FirstIndex(projects, ProjectInTenant(projectId, user.company));
      if found.None? {
        return Err(Error(404, "Project not found"));
      }
      var existing := projects[found.value];
      if patch.status == Some("completed") && existing.fields.status != "completed" {
        LogCompletion(existing, invoiceId, notificationId, today, user);
      }
      ghost var logged := Db();
      assert ProjectWithId(projectId)(projects[found.value]);
      var j := Query.FirstIndex(projects, ProjectWithId(projectId)).value;
      var patched := projects[j := projects[j].(fields := PatchProject(projects[j].fields, patch))];
      projects := patched;
      r := Ok(projects[j]);
      assert Db() == logged.(projects := patched);
    }

    /** The completion side of `update_project`: the revenue invoice, numbered
        next for the tenant, and the notification to the editor. */
    method LogCompletion(existing: Project, invoiceId: string, notificationId: string, today: string, user: User)
      requires Valid()
      modifies this
      ensures Valid()
      ensures Db() == old(Db()).(
        invoices := old(invoices) + [CompletionInvoice(existing, invoiceId,
          Invoicing.InvoiceNumber(Invoicing.TenantCount(old(invoices), user.company)), today, user.id, user.company)],
        notifications := old(notifications) +
          [Notification(notificationId, user.id, "system", "Project Revenue Logged", false)])
    {
      var number := Invoicing.InvoiceNumber(Invoicing.TenantCount(invoices, user.company));
      InsertInvoice(CompletionInvoice(existing, invoiceId, number, today, user.id, user.company));
      notifications := notifications + [Notification(notificationId, user.id, "system", "Project Revenue Logged", false)];
    }

    // ------------------------------------------------------------------- tasks

    method CreateTask(header: string, fields: TaskFields, id: string) returns (r: Result<Task>)
      requires Valid()
      modifies this
      ensures Valid()
      ensures var gate := old(Caller(header));
        && (gate.Err? ==> r == Err(gate.error) && Db() == old(Db()))
        && (gate.Ok? ==>
              && r == Ok(Task(id, fields, gate.value.id, gate.value.id, gate.value.company))
              && Db() == old(Db()).(tasks := old(tasks) + [r.value]))
    {
      var gate := Caller(header);
      if gate.Err? {
        return Err(gate.error);
      }
      var task := Task(id, fields, gate.value.id, gate.value.id, gate.value.company);
      tasks := tasks + [task];
      r := Ok(task);
    }

    /** Any signed-in user may update a task of their own tenant. */
    method UpdateTask(header: string, taskId: string, patch: TaskPatch) returns (r: Result<Task>)
      requires Valid()
      modifies this
      ensures Valid()
      ensures var gate := old(Caller(header));
        gate.Err? ==> r == Err(gate.error) && Db() == old(Db())
      ensures var gate := old(Caller(header));
        gate.Ok? ==>
          match Query.FirstIndex(old(tasks), TaskInTenant(taskId, gate.value.company))
          case None => r == Err(Error(404, "Task not found or access denied")) && Db() == old(Db())
          case Some(i) =>
            && Db() == old(Db()).(tasks := old(tasks)[i := PatchTask(old(tasks)[i], patch)])
            && Query.FindOne(tasks, TaskWithId(taskId)).Some?
            && r == Ok(Query.FindOne(tasks, TaskWithId(taskId)).value)
    {
      var gate := Caller(header);
      if gate.Err? {
        return Err(gate.error);
      }
      var found := Query.FirstIndex(tasks, TaskInTenant(taskId, gate.value.company));
      if found.None? {
        return Err(Error(404, "Task not found or access denied"));
      }
      var i := found.value;
      tasks := tasks[i := PatchTask(tasks[i], patch)];
      assert TaskWithId(taskId)(tasks[i]);
      r := Ok(Query.FindOne(tasks, TaskWithId(taskId)).value);
    }

    /** Deletes the first task with the id, in whichever tenant it is. */
    method DeleteTask(header: string, taskId: string) returns (r: Result<()>)
      requires Valid()
      modifies this
      ensures Valid()
      ensures var gate := old(Authorized(header, Access.TenantAdmins));
        gate.Err? ==> r == Err(gate.error) && Db() == old(Db())
      ensures var gate := old(Authorized(header, Access.TenantAdmins));
        gate.Ok? ==>
          match Query.FirstIndex(old(tasks), TaskWithId(taskId))
          case None => r == Err(Error(404, "Task not found")) && Db() == old(Db())
          case Some(i) => r == Ok(()) && Db() == old(Db()).(tasks := old(tasks)[..i] + old(tasks)[i + 1..])
    {
      var gate := Authorized(header, Access.TenantAdmins);
      if gate.Err? {
        return Err(gate.error);
      }
      var found := Query.FirstIndex(tasks, TaskWithId(taskId));
      if found.None? {
        return Err(Error(404, "Task not found"));
      }
      tasks := tasks[..found.value] + tasks[found.value + 1..];
      r := Ok(());
    }

    // ------------------------------------------------------------------ leaves

    method CreateLeave(header: string, kind: string, startDate: string, endDate: string, reason: string,
                       id: string, notificationId: string)
      returns (r: Result<Leave>)
      requires Valid()
      modifies this
      ensures Valid()
      ensures var gate := old(Caller(header));
        && (gate.Err? ==> r == Err(gate.error) && Db() == old(Db()))
        && (gate.Ok? ==>
              && r == Ok(Leave(id, gate.value.id, gate.value.name, kind, startDate, endDate, reason,
                               "pending", None, gate.value.company))
              && Db() == old(Db()).(
                   leaves := old(leaves) + [r.value],
                   notifications := old(notifications) +
                     [Notification(notificationId, gate.value.id, "email", "Leave Submitted", false)]))
    {
      var gate := Caller(header);
      if gate.Err? {
        return Err(gate.error);
      }
      var user := gate.value;
      var leave := Leave(id, user.id, user.name, kind, startDate, endDate, reason, "pending", None, user.company);
      leaves := leaves + [leave];
      notifications := notifications + [Notification(notificationId, user.id, "email", "Leave Submitted", false)];
      r := Ok(leave);
    }

    /** Approval or rejection by a tenant admin, who is recorded as approver; the
        owner of the leave re-read by id is notified. */
    method UpdateLeave(header: string, leaveId: string, status: string, notificationId: string)
      returns (r: Result<Leave>)
      requires Valid()
      modifies this
      ensures Valid()
      ensures var gate := old(Authorized(header, Access.TenantAdmins));
        gate.Err? ==> r == Err(gate.error) && Db() == old(Db())
      ensures var gate := old(Authorized(header, Access.TenantAdmins));
        gate.Ok? ==>
          match Query.FirstIndex(old(leaves), LeaveInTenant(leaveId, gate.value.company))
          case None => r == Err(Error(404, "Leave not found or access denied")) && Db() == old(Db())
          case Some(i) =>
            && leaves == old(leaves)[i := old(leaves)[i].(status := status, approvedBy := Some(gate.value.id))]
            && Query.FindOne(leaves, LeaveWithId(leaveId)).Some?
            && r == Ok(Query.FindOne(leaves, LeaveWithId(leaveId)).value)
            && Db() == old(Db()).(
                 leaves := leaves,
                 notifications := old(notifications) +
                   [Notification(notificationId, r.value.userId, "email", "Leave " + Text.TitleCase(status), false)])
    {
      var gate := Authorized(header, Access.TenantAdmins);
      if gate.Err? {
        return Err(gate.error);
      }
      var found := Query.FirstIndex(leaves, LeaveInTenant(leaveId, gate.value.company));
      if found.None? {
        return Err(Error(404, "Leave not found or access denied"));
      }
      ghost var before := Db();
      var i := found.value;
      var decided := leaves[i := leaves[i].(status := status, approvedBy := Some(gate.value.id))];
      leaves := decided;
      assert LeaveWithId(leaveId)(leaves[i]);
      var leave := Query.FindOne(leaves, LeaveWithId(leaveId)).value;
      var notified := notifications +
        [Notification(notificationId, leave.userId, "email", "Leave " + Text.TitleCase(status), false)];
      notifications := notified;
      r := Ok(leave);
      assert Db() == before.(leaves := decided, notifications := notified);
    }

    // ----------------------------------------------------------------- finance

    /** A draft invoice numbered after the tenant's invoice count, its total the
        sum of its items. */
    method CreateInvoice(header: string, clientName: string, clientEmail: string, items: seq<Item>,
                         dueDate: string, id: string, notificationId: string)
      returns (r: Result<Invoice>)
      requires Valid()
      modifies this
      ensures Valid()
      ensures var gate := old(Authorized(header, Access.TenantAdmins));
        && (gate.Err? ==> r == Err(gate.error) && Db() == old(Db()))
        && (gate.Ok? ==>
              && r.Ok?
              && r.value.number == Invoicing.InvoiceNumber(Invoicing.TenantCount(old(invoices), gate.value.company))
              && r.value == Invoice(id, r.value.number, clientName, clientEmail, items, Invoicing.Total(items),
                                    "draft", dueDate, gate.value.id, gate.value.company)
              && Db() == old(Db()).(
                   invoices := old(invoices) + [r.value],
                   notifications := old(notifications) +
                     [Notification(notificationId, gate.value.id, "email", "Invoice Created", false)]))
    {
      var gate := Authorized(header, Access.TenantAdmins);
      if gate.Err? {
        return Err(gate.error);
      }
      var user := gate.value;
      var number := Invoicing.InvoiceNumber(Invoicing.TenantCount(invoices, user.company));
      var invoice := Invoice(id, number, clientName, clientEmail, items, Invoicing.Total(items),
                             "draft", dueDate, user.id, user.company);
      InsertInvoice(invoice);
      notifications := notifications + [Notification(notificationId, user.id, "email", "Invoice Created", false)];
      r := Ok(invoice);
    }

    method CreateExpense(header: string, title: string, amount: int, category: string, id: string)
      returns (r: Result<Expense>)
      requires Valid()
      modifies this
      ensures Valid()
      ensures var gate := old(Caller(header));
        && (gate.Err? ==> r == Err(gate.error) && Db() == old(Db()))
        && (gate.Ok? ==>
              && r == Ok(Expense(id, title, amount, category, "pending", gate.value.id, gate.value.name, gate.value.company))
              && Db() == old(Db()).(expenses := old(expenses) + [r.value]))
    {
      var gate := Caller(header);
      if gate.Err? {
        return Err(gate.error);
      }
      var user := gate.value;
      var expense := Expense(id, title, amount, category, "pending", user.id, user.name, user.company);
      expenses := expenses + [expense];
      r := Ok(expense);
    }

    // ----------------------------------------------------------- subscriptions

    /** Opens a Stripe checkout for a paid plan and records the transaction as initiated. */
    method CreateCheckout(header: string, plan: string, session: CheckoutSession, id: string)
      returns (r: Result<CheckoutSession>)
      requires Valid()
      modifies this
      ensures Valid()
      ensures var gate := old(Caller(header));
        && (gate.Err? ==> r == Err(gate.error) && Db() == old(Db()))
        && (gate.Ok? && !PurchasablePlan(plan) ==> r == Err(Error(400, "Invalid plan")) && Db() == old(Db()))
        && (gate.Ok? && PurchasablePlan(plan) ==>
              && r == Ok(session)
              && Db() == old(Db()).(transactions := old(transactions) +
                   [Transaction(id, gate.value.id, session.sessionId, PlanPriceCents[plan], "usd", plan, "initiated")]))
    {
      var gate := Caller(header);
      if gate.Err? {
        return Err(gate.error);
      }
      if plan !in PlanPriceCents || plan == "free" {
        return Err(Error(400, "Invalid plan"));
      }
      var user := gate.value;
      transactions := transactions +
        [Transaction(id, user.id, session.sessionId, PlanPriceCents[plan], "usd", plan, "initiated")];
      r := Ok(session);
    }

    /** Records Stripe's verdict on a checkout unless the transaction is already
        paid; a payment activates the plan on the CALLER's account. */
    method CheckoutStatus(header: string, sessionId: string, stripe: StripeStatus, notificationId: string)
      returns (r: Result<StripeStatus>)
      requires Valid()
      modifies this
      ensures Valid()
      ensures var gate := old(Caller(header));
        && (gate.Err? ==> r == Err(gate.error) && Db() == old(Db()))
        && (gate.Ok? ==> r == Ok(stripe))
      ensures |transactions| == |old(transactions)|
      ensures forall k :: 0 <= k < |old(transactions)| && old(transactions)[k].paymentStatus == "paid" ==>
        transactions[k] == old(transactions)[k]
      ensures var found := Query.FirstIndex(old(transactions), TransactionWithSession(sessionId));
        found.None? || old(transactions)[found.value].paymentStatus == "paid" ==> Db() == old(Db())
      ensures var gate := old(Caller(header));
        var found := Query.FirstIndex(old(transactions), TransactionWithSession(sessionId));
        gate.Ok? && found.Some? && old(transactions)[found.value].paymentStatus != "paid" ==>
          var txn := old(transactions)[found.value];
          && transactions == old(transactions)[found.value := txn.(paymentStatus := stripe.paymentStatus)]
          && Query.FirstIndex(old(users), UserWithId(gate.value.id)).Some?
          && var u := Query.FirstIndex(old(users), UserWithId(gate.value.id)).value;
          && (stripe.paymentStatus == "paid" ==>
                && users == old(users)[u := old(users)[u].(subscription := ActivatedPlan(txn, stripe.metadataPlan))]
                && notifications == old(notifications) +
                     [Notification(notificationId, gate.value.id, "email", "Subscription Activated", false)])
          && (stripe.paymentStatus != "paid" ==> users == old(users) && notifications == old(notifications))
          && Db() == old(Db()).(transactions := transactions, users := users, notifications := notifications)
    {
      var gate := Caller(header);
      if gate.Err? {
        return Err(gate.error);
      }
      var user := gate.value;
      r := Ok(stripe);
      var found := Query.FirstIndex(transactions, TransactionWithSession(sessionId));
      if found.None? || transactions[found.value].paymentStatus == "paid" {
        return;
      }
      var txn := transactions[found.value];
      SetPaymentStatus(found.value, stripe.paymentStatus);
      if stripe.paymentStatus == "paid" {
        var k :| 0 <= k < |users| && users[k] == user;
        assert UserWithId(user.id)(users[k]);
        var u := Query.FirstIndex(users, UserWithId(user.id)).value;
        Activate(u, ActivatedPlan(txn, stripe.metadataPlan),
          Notification(notificationId, user.id, "email", "Subscription Activated", false));
      }
    }

    /** `update_one` on the transaction at position `t`: only its payment status changes. */
    method SetPaymentStatus(t: nat, status: string)
      requires Valid()
      requires t < |transactions|
      modifies this
      ensures Valid()
      ensures Db() == old(Db()).(transactions := old(transactions)[t := old(transactions)[t].(paymentStatus := status)])
    {
      transactions := transactions[t := transactions[t].(paymentStatus := status)];
    }

    /** The paid side of the checkout status: the user at position `u` moves to
        `plan`, and `note` is recorded for them. */
    method Activate(u: nat, plan: string, note: Notification)
      requires Valid()
      requires u < |users|
      modifies this
      ensures Valid()
      ensures Db() == old(Db()).(users := old(users)[u := old(users)[u].(subscription := plan)],
                                 notifications := old(notifications) + [note])
    {
      users := users[u := users[u].(subscription := plan)];
      notifications := notifications + [note];
    }

    /** Stripe's webhook: a paid event marks the session's transaction paid. An
        event the library cannot verify (`None`) is answered "error" and changes nothing. */
    method StripeWebhook(event: Option<WebhookEvent>) returns (ok: bool)
      requires Valid()
      modifies this
      ensures Valid()
      ensures ok <==> event.Some?
      ensures |transactions| == |old(transactions)|
      ensures forall k :: 0 <= k < |old(transactions)| && old(transactions)[k].paymentStatus == "paid" ==>
        transactions[k] == old(transactions)[k]
      ensures event.None? || event.value.paymentStatus != "paid" ==> Db() == old(Db())
      ensures event.Some? && event.value.paymentStatus == "paid" ==>
        match Query.FirstIndex(old(transactions), TransactionWithSession(event.value.sessionId))
        case None => Db() == old(Db())
        case Some(t) => Db() == old(Db()).(transactions :=
          old(transactions)[t := old(transactions)[t].(paymentStatus := "paid")])
    {
      if event.None? {
        return false;
      }
      if event.value.paymentStatus == "paid" {
        var found := Query.FirstIndex(transactions, TransactionWithSession(event.value.sessionId));
        if found.Some? {
          transactions := transactions[found.value := transactions[found.value].(paymentStatus := "paid")];
        }
      }
      ok := true;
    }

    method AddPaymentMethod(header: string, cardNumber: string, expiry: string, cardholderName: string, id: string)
      returns (r: Result<PaymentMethod>)
      requires Valid()
      modifies this
      ensures Valid()
      ensures var gate := old(Caller(header));
        && (gate.Err? ==> r == Err(gate.error) && Db() == old(Db()))
        && (gate.Ok? ==>
              && r == Ok(PaymentMethod(id, gate.value.id, MaskCard(cardNumber), expiry, cardholderName, "card"))
              && Db() == old(Db()).(paymentMethods := old(paymentMethods) + [r.value]))
    {
      var gate := Caller(header);
      if gate.Err? {
        return Err(gate.error);
      }
      var method_ := PaymentMethod(id, gate.value.id, MaskCard(cardNumber), expiry, cardholderName, "card");
      paymentMethods := paymentMethods + [method_];
      r := Ok(method_);
    }

    // ----------------------------------------------------------- notifications

    /** Marks the caller's notification read; an id that is not the caller's is
        silently ignored. */
    method MarkNotificationRead(header: string, notificationId: string) returns (r: Result<()>)
      requires Valid()
      modifies this
      ensures Valid()
      ensures var gate := old(Caller(header));
        && (gate.Err? ==> r == Err(gate.error) && Db() == old(Db()))
        && (gate.Ok? ==> r == Ok(()))
      ensures var gate := old(Caller(header));
        gate.Ok? ==>
          match Query.FirstIndex(old(notifications), NotificationOf(notificationId, gate.value.id))
          case None => Db() == old(Db())
          case Some(i) => Db() == old(Db()).(notifications := old(notifications)[i := old(notifications)[i].(read := true)])
    {
      var gate := Caller(header);
      if gate.Err? {
        return Err(gate.error);
      }
      var found := Query.FirstIndex(notifications, NotificationOf(notificationId, gate.value.id));
      if found.Some? {
        notifications := notifications[found.value := notifications[found.value].(read := true)];
      }
      r := Ok(());
    }

    /** `update_many`: every notification of the caller becomes read; nobody
        else's changes. */
    method MarkAllRead(header: string) returns (r: Result<()>)
      requires Valid()
      modifies this
      ensures Valid()
      ensures var gate := old(Caller(header));
        && (gate.Err? ==> r == Err(gate.error) && Db() == old(Db()))
        && (gate.Ok? ==>
              && r == Ok(())
              && Db() == old(Db()).(notifications := notifications)
              && |notifications| == |old(notifications)|
              && (forall k :: 0 <= k < |notifications| ==>
                    notifications[k] == if old(notifications)[k].userId == gate.value.id
                                        then old(notifications)[k].(read := true)
                                        else old(notifications)[k]))
    {
      var gate := Caller(header);
      if gate.Err? {
        return Err(gate.error);
      }
      var uid := gate.value.id;
      var marked: seq<Notification> := [];
      var k := 0;
      while k < |notifications|
        invariant 0 <= k <= |notifications|
        invariant |marked| == k
        invariant forall j :: 0 <= j < k ==>
          marked[j] == if notifications[j].userId == uid then notifications[j].(read := true) else notifications[j]
      {
        var n := notifications[k];
        if n.userId == uid && !n.read {
          n := n.(read := true);
        }
        marked := marked + [n];
        k := k + 1;
      }
      notifications := marked;
      r := Ok(());
    }

    // ------------------------------------------------------------------- users

    /** Deletes a user; only super admins and main handlers may reach across companies. */
    method DeleteUser(header: string, userId: string) returns (r: Result<()>)
      requires Valid()
      modifies this
      ensures Valid()
      ensures var gate := old(Authorized(header, Access.UserManagers));
        gate.Err? ==> r == Err(gate.error) && Db() == old(Db())
      ensures var gate := old(Authorized(header, Access.UserManagers));
        gate.Ok? ==>
          match Query.FirstIndex(old(users), UserWithId(userId))
          case None => r == Err(Error(404, "User not found")) && Db() == old(Db())
          case Some(t) =>
            if !Access.MayManage(gate.value, old(users)[t])
            then r == Err(Error(403, "Cannot delete user from another company")) && Db() == old(Db())
            else r == Ok(()) && Db() == old(Db()).(users := old(users)[..t] + old(users)[t + 1..])
    {
      var gate := Authorized(header, Access.UserManagers);
      if gate.Err? {
        return Err(gate.error);
      }
      var found := Query.FirstIndex(users, UserWithId(userId));
      if found.None? {
        return Err(Error(404, "User not found"));
      }
      var t := found.value;
      if users[t].company != gate.value.company && gate.value.role !in Access.CrossTenantRoles {
        return Err(Error(403, "Cannot delete user from another company"));
      }
      users := users[..t] + users[t + 1..];
      r := Ok(());
    }

    /** Changes a user's role; the role is checked against the eight valid roles
        before the target is looked up. */
    method UpdateUserRole(header: string, userId: string, role: string) returns (r: Result<()>)
      requires Valid()
      modifies this
      ensures Valid()
      ensures var gate := old(Authorized(header, Access.RoleEditors));
        gate.Err? ==> r == Err(gate.error) && Db() == old(Db())
      ensures var gate := old(Authorized(header, Access.RoleEditors));
        gate.Ok? && role !in Access.ValidRoles ==> r == Err(Error(400, "Invalid role")) && Db() == old(Db())
      ensures var gate := old(Authorized(header, Access.RoleEditors));
        gate.Ok? && role in Access.ValidRoles ==>
          match Query.FirstIndex(old(users), UserWithId(userId))
          case None => r == Err(Error(404, "User not found")) && Db() == old(Db())
          case Some(t) =>
            if !Access.MayManage(gate.value, old(users)[t])
            then r == Err(Error(403, "Cannot update user from another company")) && Db() == old(Db())
            else r == Ok(()) && Db() == old(Db()).(users := old(users)[t := old(users)[t].(role := role)])
    {
      var gate := Authorized(header, Access.RoleEditors);
      if gate.Err? {
        return Err(gate.error);
      }
      if role !in Access.ValidRoles {
        return Err(Error(400, "Invalid role"));
      }
      var found := Query.FirstIndex(users, UserWithId(userId));
      if found.None? {
        return Err(Error(404, "User not found"));
      }
      var t := found.value;
      if users[t].company != gate.value.company && gate.value.role !in Access.CrossTenantRoles {
        return Err(Error(403, "Cannot update user from another company"));
      }
      users := users[t := users[t].(role := role)];
      r := Ok(());
    }

    /** Invites a user into the caller's company. The duplicate check uses the
        normalised email, but the email is stored as given and the role is not
        checked against the valid roles. */
    method CreateUser(header: string, name: string, email: string, role: string, department: string, id: string)
      returns (r: Result<string>)
      requires Valid()
      modifies this
      ensures Valid()
      ensures var gate := old(Authorized(header, Access.UserManagers));
        && (gate.Err? ==> r == Err(gate.error) && Db() == old(Db()))
        && (gate.Ok? && Query.FindOne(old(users), UserWithEmail(Text.NormaliseEmail(email))).Some? ==>
              r == Err(Error(400, "User already exists")) && Db() == old(Db()))
        && (gate.Ok? && Query.FindOne(old(users), UserWithEmail(Text.NormaliseEmail(email))).None? ==>
              && r == Ok(id)
              && Db() == old(Db()).(users := old(users) +
                   [User(id, name, email, role, gate.value.company, department, "free")]))
    {
      var gate := Authorized(header, Access.UserManagers);
      if gate.Err? {
        return Err(gate.error);
      }
      var normalised := Text.NormaliseEmail(email);
      if Query.FindOne(users, UserWithEmail(normalised)).Some? {
        return Err(Error(400, "User already exists"));
      }
      users := users + [User(id, name, email, role, gate.value.company, department, "free")];
      r := Ok(id);
    }

    /** Self-registration: the normalised email must be new; the user becomes
        the admin of the company they name. */
    method Register(name: string, email: string, company: string, id: string, notificationId: string)
      returns (r: Result<Session>)
      requires Valid()
      modifies this
      ensures Valid()
      ensures Query.FindOne(old(users), UserWithEmail(Text.NormaliseEmail(email))).Some? ==>
        r == Err(Error(400, "Email already registered")) && Db() == old(Db())
      ensures Query.FindOne(old(users), UserWithEmail(Text.NormaliseEmail(email))).None? ==>
        var user := User(id, name, Text.NormaliseEmail(email), "admin", company, "general", "free");
        && r == Ok(Session(sign(id, "admin"), user))
        && Db() == old(Db()).(
             users := old(users) + [user],
             notifications := old(notifications) +
               [Notification(notificationId, id, "system", "Welcome to Enterprise One", false)])
    {
      var normalised := Text.NormaliseEmail(email);
      if Query.FindOne(users, UserWithEmail(normalised)).Some? {
        return Err(Error(400, "Email already registered"));
      }
      var user := User(id, name, normalised, "admin", company, "general", "free");
      users := users + [user];
      notifications := notifications + [Notification(notificationId, id, "system", "Welcome to Enterprise One", false)];
      r := Ok(Session(sign(id, "admin"), user));
    }

    // ------------------------------------------------------------------- ideas

    method CreateIdea(header: string, title: string, description: string, category: string, priority: string,
                      id: string)
      returns (r: Result<Idea>)
      requires Valid()
      modifies this
      ensures Valid()
      ensures var gate := old(Caller(header));
        && (gate.Err? ==> r == Err(gate.error) && Db() == old(Db()))
        && (gate.Ok? ==>
              && r == Ok(Idea(id, title, description, category, priority, 0, [], "open", gate.value.id, gate.value.name))
              && Db() == old(Db()).(ideas := old(ideas) + [r.value]))
    {
      var gate := Caller(header);
      if gate.Err? {
        return Err(gate.error);
      }
      var idea := Idea(id, title, description, category, priority, 0, [], "open", gate.value.id, gate.value.name);
      ideas := ideas + [idea];
      r := Ok(idea);
    }

    /** Toggles the caller's vote on an idea; answers "voted" or "unvoted". */
    method VoteIdea(header: string, ideaId: string) returns (r: Result<string>)
      requires Valid()
      modifies this
      ensures Valid()
      ensures var gate := old(Caller(header));
        gate.Err? ==> r == Err(gate.error) && Db() == old(Db())
      ensures var gate := old(Caller(header));
        gate.Ok? ==>
          match Query.FirstIndex(old(ideas), IdeaWithId(ideaId))
          case None => r == Err(Error(404, "Idea not found")) && Db() == old(Db())
          case Some(i) =>
            && r == Ok(if gate.value.id in old(ideas)[i].voters then "unvoted" else "voted")
            && Db() == old(Db()).(ideas := old(ideas)[i := Ideas.Toggle(old(ideas)[i], gate.value.id)])
    {
      var gate := Caller(header);
      if gate.Err? {
        return Err(gate.error);
      }
      var found := Query.FirstIndex(ideas, IdeaWithId(ideaId));
      if found.None? {
        return Err(Error(404, "Idea not found"));
      }
      var i := found.value;
      var voter := gate.value.id;
      r := Ok(if voter in ideas[i].voters then "unvoted" else "voted");
      Ideas.ToggleKeepsTally(ideas[i], voter);
      ideas := ideas[i := Ideas.Toggle(ideas[i], voter)];
    }

    // --------------------------------------------------------------- analytics

    /** The estimate for one of the caller's projects, in the requested currency
        (INR when none is given). */
    method AnalyzeProject(header: string, projectName: Option<string>, currency: Option<string>)
      returns (r: Result<Estimation.Quote>)
      ensures Caller(header).Err? ==> r == Err(Caller(header).error)
      ensures Caller(header).Ok? ==> r.Ok?
      ensures r.Ok? ==>
        var matching := Query.Filter(tasks, InProject(Caller(header).value.company, projectName));
        && (r.value.NoTasks? <==>
              forall t :: t in tasks ==> !(t.tenant == Caller(header).value.company && projectName == Some(t.fields.project)))
        && (r.value.Quote? ==>
              && r.value.project == projectName
              && r.value.currency == currency.GetOr("INR")
              && r.value.symbol == Estimation.SymbolFor(currency.GetOr("INR"))
              && r.value.totalTasks == Query.Count(tasks, InProject(Caller(header).value.company, projectName))
              && r.value.totalHours == Estimation.TotalHours(matching)
              && r.value.estimatedCost == r.value.totalHours * Estimation.RateFor(currency.GetOr("INR"))
              && r.value.weeks == Estimation.TimelineWeeks(r.value.totalHours))
    {
      var gate := Caller(header);
      if gate.Err? {
        return Err(gate.error);
      }
      var matching := Query.Filter(tasks, InProject(gate.value.company, projectName));
      Query.CountIsFilterLength(tasks, InProject(gate.value.company, projectName));
      var quote := Estimation.EstimateTasks(matching, projectName, currency.GetOr("INR"));
      r := Ok(quote);
    }

    // ----------------------------------------------------------------- domains

    /** One offer per extension, in table order; a name already registered is
        never offered as available. */
    method CheckDomain(domain: string, draw: nat -> bool) returns (r: Result<seq<Domains.Offer>>)
      ensures var base := Domains.Base(domain);
        && (|base| < 2 ==> r == Err(Error(400, "Invalid domain name")))
        && (|base| >= 2 ==> r.Ok? && |r.value| == |Domains.Extensions|)
        && (r.Ok? ==> forall k :: 0 <= k < |r.value| ==>
              var name := base + Domains.Extensions[k];
              r.value[k] == Domains.Offer(name, draw(k) && Free(domains, name), Domains.PriceCents[k]))
    {
      var base := Domains.Base(domain);
      if |base| < 2 {
        return Err(Error(400, "Invalid domain name"));
      }
      var offers := OffersFor(base, draw);
      r := Ok(offers);
    }

    /** The loop over the extension table: one offer per extension, in table order. */
    method OffersFor(base: string, draw: nat -> bool) returns (offers: seq<Domains.Offer>)
      ensures |offers| == |Domains.Extensions|
      ensures forall k :: 0 <= k < |offers| ==>
        var name := base + Domains.Extensions[k];
        offers[k] == Domains.Offer(name, draw(k) && Free(domains, name), Domains.PriceCents[k])
    {
      offers := [];
      var k := 0;
      while k < |Domains.Extensions|
        invariant 0 <= k <= |Domains.Extensions|
        invariant |offers| == k
        invariant forall j :: 0 <= j < k ==>
          var name := base + Domains.Extensions[j];
          offers[j] == Domains.Offer(name, draw(j) && Free(domains, name), Domains.PriceCents[j])
      {
        var full := base + Domains.Extensions[k];
        var existing := Query.FindOne(domains, DomainNamed(full));
        assert existing.None? <==> Free(domains, full);
        var available := existing.None? && draw(k);
        offers := offers + [Domains.Offer(full, available, Domains.PriceCents[k])];
        k := k + 1;
      }
    }

    method PurchaseDomain(domain: string, email: string, id: string) returns (r: Result<DomainRecord>)
      requires Valid()
      modifies this
      ensures Valid()
      ensures !Free(old(domains), domain) ==>
        r == Err(Error(400, "Domain already taken")) && Db() == old(Db())
      ensures Free(old(domains), domain) ==>
        && r == Ok(DomainRecord(id, domain, email, "active"))
        && Db() == old(Db()).(domains := old(domains) + [r.value])
    {
      if Query.FindOne(domains, DomainNamed(domain)).Some? {
        return Err(Error(400, "Domain already taken"));
      }
      var record := DomainRecord(id, domain, email, "active");
      domains := domains + [record];
      r := Ok(record);
    }
  }
}
