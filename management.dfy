/** The management page (src/pages/Management.tsx): which roles the
    signed-in user may hand out, the role a new member starts with, and
    the in-memory filters over the user and template lists. */
module Management {
  import opened Optional
  import opened Text
  import opened Seqs

  const CompanyRole: string := "company"
  const AdminRole: string := "admin"
  const ProfessionalRole: string := "profissional"
  const OperatorRole: string := "operador"
  const AllRoles: string := "all"

  /** The signed-in user, as far as the page reads it. */
  datatype CurrentUser = CurrentUser(id: string, role: string)

  datatype Tab = CompaniesTab | TeamTab | TemplatesTab

  /** The tab the page opens on. */
  function InitialTab(user: Option<CurrentUser>): Tab {
    if user.Some? && user.value.role == AdminRole then CompaniesTab else TeamTab
  }

  /** availableRoles */
  function AvailableRoles(user: Option<CurrentUser>): seq<string> {
    if user.None? then []
    else if user.value.role == AdminRole then [CompanyRole, ProfessionalRole, OperatorRole]
    else if user.value.role == CompanyRole then [ProfessionalRole, OperatorRole]
    else []
  }

  /** `roles.find(r => r !== 'company')` */
  function FirstNonCompany(roles: seq<string>): (r: Option<string>)
    ensures r.Some? ==> r.value in roles && r.value != CompanyRole
    ensures r.None? ==> forall i :: 0 <= i < |roles| ==> roles[i] == CompanyRole
  {
    if roles == [] then None
    else if roles[0] != CompanyRole then Some(roles[0])
    else FirstNonCompany(roles[1..])
  }

  /** The role of a new member: 'company' on the companies tab, else the
      first available role that is not 'company', or 'operador'. */
  function DefaultRole(tab: Tab, user: Option<CurrentUser>): string {
    if tab == CompaniesTab then CompanyRole
    else
      var r := FirstNonCompany(AvailableRoles(user));
      if r.Some? && r.value != "" then r.value else OperatorRole
  }

  /** What handleOpenCreate opens: on the templates tab a template owned by
      the signed-in user, global when an administrator creates it; on the
      other tabs a member with the default role, belonging to the company
      when a company creates it. */
  datatype Draft =
    | MemberDraft(role: string, companyId: Option<string>, active: bool)
    | TemplateDraft(isGlobal: bool, companyId: Option<string>, active: bool)

  function NewDraft(tab: Tab, user: Option<CurrentUser>): Draft {
    if tab == TemplatesTab then
      TemplateDraft(user.Some? && user.value.role == AdminRole, if user.Some? then Some(user.value.id) else None, true)
    else
      MemberDraft(DefaultRole(tab, user),
        if user.Some? && user.value.role == CompanyRole then Some(user.value.id) else None, true)
  }

  /** An administrator hands out every role, a company only the two staff
      roles, and anyone else none; the administrator starts on the
      companies tab. */
  lemma RolesByUser(user: Option<CurrentUser>)
    ensures user.Some? && user.value.role == AdminRole ==>
      AvailableRoles(user) == ["company", "profissional", "operador"] && InitialTab(user) == CompaniesTab
    ensures user.Some? && user.value.role == CompanyRole ==>
      AvailableRoles(user) == ["profissional", "operador"] && InitialTab(user) == TeamTab
    ensures (user.None? || (user.value.role != AdminRole && user.value.role != CompanyRole)) ==>
      AvailableRoles(user) == [] && InitialTab(user) == TeamTab
    ensures user.None? || user.value.role != AdminRole ==> CompanyRole !in AvailableRoles(user)
  {
  }

  /** A new member is a company only on the companies tab; elsewhere it
      gets an available staff role when there is one, and 'operador'
      otherwise; a company's new member belongs to that company. */
  lemma NewMemberRole(tab: Tab, user: Option<CurrentUser>)
    requires tab != TemplatesTab
    ensures var d := NewDraft(tab, user);
      && d.MemberDraft? && d.active
      && (d.role == CompanyRole <==> tab == CompaniesTab)
      && (tab == TeamTab && FirstNonCompany(AvailableRoles(user)).Some? ==> d.role in AvailableRoles(user))
      && (tab == TeamTab && FirstNonCompany(AvailableRoles(user)).None? ==> d.role == OperatorRole)
      && (tab == TeamTab && user.Some? && (user.value.role == AdminRole || user.value.role == CompanyRole) ==>
            d.role == ProfessionalRole)
      && (d.companyId.Some? <==> user.Some? && user.value.role == CompanyRole)
      && (d.companyId.Some? ==> d.companyId.value == user.value.id)
  {
    var staff := [ProfessionalRole, OperatorRole];
    assert FirstNonCompany(staff) == Some(ProfessionalRole);
    assert [CompanyRole, ProfessionalRole, OperatorRole][1..] == staff;
  }

  /** A new template belongs to the signed-in user and is global exactly
      when an administrator creates it. */
  lemma NewTemplateOwner(user: Option<CurrentUser>)
    ensures var d := NewDraft(TemplatesTab, user);
      && d.TemplateDraft? && d.active
      && (d.isGlobal <==> user.Some? && user.value.role == AdminRole)
      && (d.companyId.Some? <==> user.Some?)
      && (user.Some? ==> d.companyId == Some(user.value.id))
  {
  }

  // ---- filters -------------------------------------------------------------

  /** A row of usersList; name and email may be null. */
  datatype UserRow = UserRow(name: Option<string>, email: Option<string>, role: string)

  /** `(x || '')` */
  function OrEmpty(x: Option<string>): string {
    if x.Some? then x.value else ""
  }

  /** `(x || '').toLowerCase().includes(search.toLowerCase())` */
  predicate MatchesText(x: Option<string>, search: string) {
    Contains(ToLower(OrEmpty(x)), ToLower(search))
  }

  /** The companies tab lists companies, the team tab everyone else. */
  predicate OnTab(u: UserRow, tab: Tab) {
    !(tab == CompaniesTab && u.role != CompanyRole) && !(tab == TeamTab && u.role == CompanyRole)
  }

  /** The test filteredUsers applies to a row. */
  predicate KeepsUser(u: UserRow, tab: Tab, search: string, roleFilter: string) {
    && OnTab(u, tab)
    && (MatchesText(u.name, search) || MatchesText(u.email, search))
    && (roleFilter == AllRoles || u.role == roleFilter)
  }

  function FilteredUsers(users: seq<UserRow>, tab: Tab, search: string, roleFilter: string): seq<UserRow> {
    Filter(users, (u: UserRow) => KeepsUser(u, tab, search, roleFilter))
  }

  /** filteredUsers keeps, in their order, exactly the rows of the tab's
      kind that match the search on name or email and pass the role
      filter: the companies tab shows only companies and the team tab
      never shows one. */
  lemma FilteredUsersSpec(users: seq<UserRow>, tab: Tab, search: string, roleFilter: string)
    ensures var r := FilteredUsers(users, tab, search, roleFilter);
      && IsSubsequence(r, users)
      && (forall u :: u in r <==> u in users && KeepsUser(u, tab, search, roleFilter))
      && (tab == CompaniesTab ==> forall u :: u in r ==> u.role == CompanyRole)
      && (tab == TeamTab ==> forall u :: u in r ==> u.role != CompanyRole)
      && (roleFilter != AllRoles ==> forall u :: u in r ==> u.role == roleFilter)
  {
    FilterIsSubsequence(users, (u: UserRow) => KeepsUser(u, tab, search, roleFilter));
  }

  /** An empty search matches every name and email, null ones included. */
  lemma EmptySearchMatches(x: Option<string>)
    ensures MatchesText(x, "")
  {
    assert ToLower("") == "";
    ContainsEmpty(ToLower(OrEmpty(x)));
  }

  /** With an empty search and role filter 'all', the team tab shows every
      non-company row and the companies tab every company. */
  lemma EmptySearchKeepsAll(users: seq<UserRow>, tab: Tab)
    ensures forall u :: u in users && OnTab(u, tab) ==> u in FilteredUsers(users, tab, "", AllRoles)
  {
    forall u | u in users && OnTab(u, tab)
      ensures u in FilteredUsers(users, tab, "", AllRoles)
    {
      EmptySearchMatches(u.name);
    }
  }

  /** The search ignores letter case: searches that lowercase alike keep the
      same rows. */
  lemma SearchIgnoresCase(u: UserRow, tab: Tab, a: string, b: string, roleFilter: string)
    requires ToLower(a) == ToLower(b)
    ensures KeepsUser(u, tab, a, roleFilter) <==> KeepsUser(u, tab, b, roleFilter)
  {
  }

  /** A row of templates; the name may be null. */
  datatype TemplateRow = TemplateRow(name: Option<string>)

  function FilteredTemplates(templates: seq<TemplateRow>, search: string): seq<TemplateRow> {
    Filter(templates, (t: TemplateRow) => MatchesText(t.name, search))
  }

  /** filteredTemplates keeps, in their order, exactly the templates whose
      name contains the search, ignoring case; an empty search keeps all. */
  lemma FilteredTemplatesSpec(templates: seq<TemplateRow>, search: string)
    ensures var r := FilteredTemplates(templates, search);
      && IsSubsequence(r, templates)
      && (forall t :: t in r <==> t in templates && Contains(ToLower(OrEmpty(t.name)), ToLower(search)))
      && (search == "" ==> forall t :: t in templates ==> t in r)
  {
    FilterIsSubsequence(templates, (t: TemplateRow) => MatchesText(t.name, search));
    if search == "" {
      forall t | t in templates
        ensures MatchesText(t.name, search)
      {
        EmptySearchMatches(t.name);
      }
    }
  }
}
