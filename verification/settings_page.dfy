/**
  The settings page: invite quota arithmetic against the plan's member limit,
  the invite guard, the roles each role set offers, and the access-control
  badges, checked against the entitlement rules.
 */
module SettingsPage {
  import opened Wrappers
  import opened Text
  import opened Entitlements

  /** `memberLimit === Infinity || currentMembers < memberLimit`. */
  predicate CanInviteMore(limit: Limit, current: int) {
    limit.Unlimited? || current < limit.n
  }

  /** The remaining-invites badge: "Unlimited" or `memberLimit - currentMembers`. */
  datatype Remaining = UnlimitedInvites | Invites(count: int)

  function RemainingInvites(limit: Limit, current: int): (r: Remaining)
    ensures r.UnlimitedInvites? <==> limit.Unlimited?
    ensures r.Invites? ==> r.count + current == limit.n
  {
    match limit
    case Unlimited => UnlimitedInvites
    case Finite(n) => Invites(n - current)
  }

  /** One may invite more exactly when the badge shows Unlimited or a positive count. */
  lemma CanInviteIffRemaining(limit: Limit, current: int)
    ensures CanInviteMore(limit, current) <==>
      match RemainingInvites(limit, current)
      case UnlimitedInvites => true
      case Invites(k) => k > 0
  {
  }

  /** The invite form's state after clicking Invite: the email field and the address invited, if any. */
  datatype InviteResult = InviteResult(email: string, invited: Option<string>)

  /** `handleInvite`: acts only on a non-empty email with room left, then clears the field. */
  function HandleInvite(email: string, limit: Limit, current: int): (r: InviteResult)
    ensures r.invited.Some? <==> email != [] && CanInviteMore(limit, current)
    ensures r.invited.Some? ==> r.invited.value == email && r.email == []
    ensures r.invited.None? ==> r.email == email
  {
    if email != [] && CanInviteMore(limit, current) then InviteResult([], Some(email))
    else InviteResult(email, None)
  }

  /** The Invite button is enabled exactly when clicking it would invite. */
  predicate InviteButtonEnabled(email: string, limit: Limit, current: int) {
    !(email == [] || !CanInviteMore(limit, current))
  }

  lemma InviteButtonMatchesHandler(email: string, limit: Limit, current: int)
    ensures InviteButtonEnabled(email, limit, current) <==> HandleInvite(email, limit, current).invited.Some?
  {
  }

  /** On the plan's own limit: Enterprise can always invite; Free stops at one member, Pro at ten. */
  lemma PlanInviteQuota(p: Plan, current: int)
    ensures CanInviteMore(GetMemberLimit(p), current) <==>
      p == Enterprise || (p == Pro && current < 10) || (p == Free && current < 1)
    ensures p != Enterprise && current >= 0 ==>
      RemainingInvites(GetMemberLimit(p), current).count <= GetMemberLimit(p).n
  {
  }

  /** The invite form is shown to Admins only: the same members who may create projects. */
  predicate InviteFormShown(s: Settings) {
    s.memberType == Admin
  }

  lemma InviteFormForProjectCreators(s: Settings)
    ensures InviteFormShown(s) <==> CanCreateProject(s)
  {
  }

  /** The roles the "Your Role" selector offers. */
  function RoleOptions(rs: RoleSet): (r: seq<MemberType>)
    ensures |r| >= 2 && r[..2] == [Admin, Member]
  {
    [Admin, Member] + (if rs == EnterpriseRoles then [Developer, Billing] else [])
  }

  /** Admin and Member are always offered; Developer and Billing only with the Enterprise role set. */
  lemma RoleOptionsByRoleSet(rs: RoleSet, m: MemberType)
    ensures m in RoleOptions(rs) <==> m == Admin || m == Member || rs == EnterpriseRoles
  {
  }

  /**
    A member whose role the current role set no longer offers (a downgraded
    role set) holds no create, delete or manage right.
   */
  lemma StaleRoleIsLeastPrivileged(s: Settings)
    requires s.memberType !in RoleOptions(s.roleSet)
    ensures !CanCreateProject(s) && !CanDeleteProject(s)
    ensures !CanManageBilling(s) && !CanManageDeveloper(s)
  {
    RoleOptionsByRoleSet(s.roleSet, s.memberType);
  }

  // ---------------------------------------------------------------------------
  // Access-control badges.

  function SectionBadge(p: Plan): string {
    if p == Enterprise then "Available" else "Enterprise Only"
  }

  function PermissionBadge(m: MemberType): string {
    if m == Admin then "Yes" else "Admin Only"
  }

  /** The badges say what the capability predicates decide. */
  lemma BadgesMatchCapabilities(s: Settings)
    ensures SectionBadge(s.plan) == "Available" <==> CanSeeBilling(s)
    ensures SectionBadge(s.plan) == "Available" <==> CanSeeDeveloper(s)
    ensures PermissionBadge(s.memberType) == "Yes" <==> CanCreateProject(s)
    ensures PermissionBadge(s.memberType) == "Yes" <==> CanDeleteProject(s)
  {
  }

  /** The plan selector's labels, written out as the page writes them. */
  function PlanOptionLabel(p: Plan): string {
    match p
    case Free => "Free - $0/month"
    case Pro => "Pro - $10/month"
    case Enterprise => "Enterprise - $200/month"
  }

  function PlanName(p: Plan): string {
    match p
    case Free => "Free"
    case Pro => "Pro"
    case Enterprise => "Enterprise"
  }

  /** The selector's hard-coded prices agree with the catalog's `getPlanPrice`. */
  lemma PlanLabelsMatchCatalog(p: Plan)
    ensures PlanOptionLabel(p) == PlanName(p) + " - $" + DecimalString(GetPlanPrice(p)) + "/month"
  {
    PriceDigits();
    match p
    case Free =>
      assert PlanName(p) + " - $" + "0" + "/month" == "Free - $0/month";
    case Pro =>
      assert PlanName(p) + " - $" + "10" + "/month" == "Pro - $10/month";
    case Enterprise =>
      assert PlanName(p) + " - $" + "200" + "/month" == "Enterprise - $200/month";
  }

  /** The decimal renderings of the three catalog prices. */
  lemma PriceDigits()
    ensures DecimalString(0) == "0" && DecimalString(10) == "10" && DecimalString(200) == "200"
  {
    assert DecimalString(1) == "1";
    assert DecimalString(2) == "2";
    assert DecimalString(10) == DecimalString(1) + [DigitChar(0)];
    assert DecimalString(20) == DecimalString(2) + [DigitChar(0)];
    assert DecimalString(200) == DecimalString(20) + [DigitChar(0)];
  }

  /** The member-limit text: "Unlimited" or the number. */
  function LimitText(l: Limit): (t: string)
    ensures l.Unlimited? ==> t == "Unlimited"
    ensures l.Finite? ==> IsDigits(t) && ParseDecimal(t) == l.n
    ensures l.Finite? ==> t != [] && (|t| == 1 || t[0] != '0')
  {
    match l
    case Unlimited => "Unlimited"
    case Finite(n) => DecimalRoundTrip(n); DecimalString(n)
  }
}
