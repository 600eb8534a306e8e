/**
  The plan/role entitlement rules of the settings context: three closed
  enumerations, the capability predicates the dashboard consults, and the
  plan catalog (member limit and monthly price).

  The context keeps plan, role set and member type as shared UI state; here
  they are one `Settings` value passed to every check.
 */
module Entitlements {

  datatype Plan = Free | Pro | Enterprise

  /** "Default" (Admin and Member) or "Enterprise" (all roles). */
  datatype RoleSet = DefaultRoles | EnterpriseRoles

  datatype MemberType = Admin | Member | Developer | Billing

  datatype Settings = Settings(plan: Plan, roleSet: RoleSet, memberType: MemberType)

  /** A member ceiling: a count, or the settings context's `Number.POSITIVE_INFINITY`. */
  datatype Limit = Finite(n: nat) | Unlimited

  // ---------------------------------------------------------------------------
  // Capability predicates, written as the context writes them.

  predicate CanSeeBilling(s: Settings) {
    s.plan == Enterprise
  }

  predicate CanSeeDeveloper(s: Settings) {
    s.plan == Enterprise
  }

  predicate CanCreateProject(s: Settings) {
    s.memberType == Admin
  }

  predicate CanDeleteProject(s: Settings) {
    s.memberType == Admin
  }

  /** The `memberType == Billing` disjunct sits under `memberType == Admin` and never decides. */
  predicate CanManageBilling(s: Settings)
    ensures CanManageBilling(s) <==>
      s.plan == Enterprise && s.memberType == Admin && s.roleSet == EnterpriseRoles
  {
    s.plan == Enterprise && s.memberType == Admin && (s.roleSet == EnterpriseRoles || s.memberType == Billing)
  }

  /** Likewise the `memberType == Developer` disjunct never decides. */
  predicate CanManageDeveloper(s: Settings)
    ensures CanManageDeveloper(s) <==>
      s.plan == Enterprise && s.memberType == Admin && s.roleSet == EnterpriseRoles
  {
    s.plan == Enterprise && s.memberType == Admin && (s.roleSet == EnterpriseRoles || s.memberType == Developer)
  }

  // ---------------------------------------------------------------------------
  // Capability gate: one entry point over a closed set of capability names.

  datatype Capability =
    | SeeBilling | SeeDeveloper | CreateProject | DeleteProject | ManageBilling | ManageDeveloper

  /** Every capability is granted exactly when its row of the rule table is met. */
  function CanPerform(cap: Capability, s: Settings): (r: bool)
    ensures r <==> Meets(s, RequirementOf(cap))
  {
    match cap
    case SeeBilling => CanSeeBilling(s)
    case SeeDeveloper => CanSeeDeveloper(s)
    case CreateProject => CanCreateProject(s)
    case DeleteProject => CanDeleteProject(s)
    case ManageBilling => CanManageBilling(s)
    case ManageDeveloper => CanManageDeveloper(s)
  }

  /**
    The capability rule table, stated independently of the predicates: which of
    top plan, administrative role and expanded role set a capability needs.
   */
  datatype Requirement = Requirement(topPlan: bool, admin: bool, expandedRoles: bool)

  function RequirementOf(cap: Capability): Requirement {
    match cap
    case SeeBilling | SeeDeveloper => Requirement(true, false, false)
    case CreateProject | DeleteProject => Requirement(false, true, false)
    case ManageBilling | ManageDeveloper => Requirement(true, true, true)
  }

  predicate Meets(s: Settings, req: Requirement) {
    && (req.topPlan ==> s.plan == Enterprise)
    && (req.admin ==> s.memberType == Admin)
    && (req.expandedRoles ==> s.roleSet == EnterpriseRoles)
  }

  /** Seeing billing and developer sections depends on the plan alone and needs Enterprise. */
  lemma SeeIsPlanGated(s: Settings, t: Settings)
    ensures s.plan == t.plan ==> CanSeeBilling(s) == CanSeeBilling(t) && CanSeeDeveloper(s) == CanSeeDeveloper(t)
    ensures CanSeeBilling(s) <==> s.plan == Enterprise
    ensures CanSeeDeveloper(s) <==> s.plan == Enterprise
  {
  }

  /** Creating and deleting projects depends on the member type alone and needs Admin. */
  lemma ProjectRightsAreRoleGated(s: Settings, t: Settings)
    ensures s.memberType == t.memberType ==>
      CanCreateProject(s) == CanCreateProject(t) && CanDeleteProject(s) == CanDeleteProject(t)
    ensures CanCreateProject(s) <==> s.memberType == Admin
    ensures CanDeleteProject(s) <==> s.memberType == Admin
  {
  }

  /** The management capabilities imply the corresponding view and the admin rights. */
  lemma ManageImpliesSeeAndAdmin(s: Settings)
    ensures CanManageBilling(s) ==> CanSeeBilling(s) && CanCreateProject(s) && CanDeleteProject(s)
    ensures CanManageDeveloper(s) ==> CanSeeDeveloper(s) && CanCreateProject(s) && CanDeleteProject(s)
    ensures CanManageBilling(s) <==> CanManageDeveloper(s)
  {
  }

  /** A Billing or Developer member never manages billing or developer settings, whatever the role set. */
  lemma DedicatedRoleDoesNotManage(s: Settings)
    requires s.memberType == Billing || s.memberType == Developer
    ensures !CanManageBilling(s) && !CanManageDeveloper(s)
    ensures !CanCreateProject(s) && !CanDeleteProject(s)
  {
  }

  // ---------------------------------------------------------------------------
  // Plan catalog.

  /** The member ceiling of each plan; the settings context's `default` branch has no counterpart for a closed enum. */
  function GetMemberLimit(p: Plan): (r: Limit)
    ensures r.Finite? ==> r.n >= 1
    ensures r == Unlimited <==> p == Enterprise
  {
    match p
    case Free => Finite(1)
    case Pro => Finite(10)
    case Enterprise => Unlimited
  }

  /** The monthly price in dollars of each plan. */
  function GetPlanPrice(p: Plan): (r: nat)
    ensures r == 0 <==> p == Free
  {
    match p
    case Free => 0
    case Pro => 10
    case Enterprise => 200
  }

  /** Tier order Free < Pro < Enterprise. */
  function Rank(p: Plan): nat {
    match p
    case Free => 0
    case Pro => 1
    case Enterprise => 2
  }

  /** Limits ordered with Unlimited on top. */
  predicate LimitLe(a: Limit, b: Limit) {
    match (a, b)
    case (_, Unlimited) => true
    case (Unlimited, Finite(_)) => false
    case (Finite(x), Finite(y)) => x <= y
  }

  /** The catalog rows the settings context hard-codes. */
  lemma CatalogValues()
    ensures GetMemberLimit(Free) == Finite(1) && GetPlanPrice(Free) == 0
    ensures GetMemberLimit(Pro) == Finite(10) && GetPlanPrice(Pro) == 10
    ensures GetMemberLimit(Enterprise) == Unlimited && GetPlanPrice(Enterprise) == 200
  {
  }

  /** Going up a tier never lowers the ceiling and strictly raises the price. */
  lemma CatalogMonotone(p: Plan, q: Plan)
    ensures Rank(p) <= Rank(q) ==> LimitLe(GetMemberLimit(p), GetMemberLimit(q))
    ensures Rank(p) <= Rank(q) <==> GetPlanPrice(p) <= GetPlanPrice(q)
    ensures GetPlanPrice(p) == GetPlanPrice(q) ==> p == q
  {
  }
}
