# Circular: entitlements, billing webhook and project lists in Dafny

This project models the decision logic of the Circular dashboard, a
Linear-style project-management app, with its React, Stripe and Clerk shells
stripped away:

- **Entitlements** (`Entitlements`): the closed enumerations `Plan`,
  `RoleSet` and `MemberType` of the settings context. The capability predicates
  (`canSeeBilling`, `canCreateProject`, `canManageBilling`, ...) are functions of
  one `Settings` value, not of shared UI state. The module also holds the plan
  catalog: member limit (`Finite(n) | Unlimited`) and monthly price.
- **Webhook** (`Webhook`): `POST /api/stripe` as a pure function `Handle`
  from an abstract request to a response plus at most one organization write.
  `Apply` and `Deliver` add the identity provider's organization store, a map
  from org id to `(maxMemberships, metadataPlan)` that a write updates: the
  ceiling always, the plan tag only when one is sent.
- **Project detail** (`ProjectDetail`): the task-list handlers of a project
  page (create, update, delete, toggle, save), the completed/total counts and
  the completion percentage.
- **Dashboard** (`Dashboard`): the project list with its capability-gated
  create and delete, the navigation entries and panels, and the home statistics.
- **Settings page** (`SettingsPage`): invite quota arithmetic, the invite
  guard, the roles each role set offers, and the access-control badges.
- `Text` holds ECMAScript `trim` (its exact whitespace set) and the decimal
  rendering of a number in a template literal. `Wrappers` holds `Option`.

Parameters stand in for the things the model cannot see:

- `Date.now()` ids and `new Date()` timestamps are `freshId` and `now`.
- `constructEvent` is the oracle `verify(rawBody, signature)`.
- `listLineItems` is the oracle `lineItems(sessionId)`.
- Clerk `has({permission})` is not needed by any modelled handler.

Where the code's behaviour is open to more than one reading, the model follows the code:

- The organization reference is the session's `client_reference_id` alone. No
  metadata hint is consulted for the plan; only the first line item's price is.
- A cancelled subscription writes a ceiling of 2 and `privateMetadata: undefined`.
  It does not write the Free plan's ceiling of 1. `CancellationCeilingDiffersFromFree`
  states the mismatch.
- Enterprise checkout writes `maxAllowedMemberships: 0`, and Pro writes 10. Clerk
  reads 0 as "no limit" (`CeilingAsLimit`). Under that reading both paid plans
  agree with the catalog (`CheckoutCeilingMatchesCatalog`).
- `updateOrganization` is a partial update, and a property whose value is
  `undefined` is dropped when the request body is serialised as JSON. So the
  cancellation sends no metadata, and `Apply` keeps the stored plan tag. A Pro
  checkout followed by a cancellation leaves two members and the 'pro' tag
  (`CancellationKeepsPlanTag`). A metadata value that is sent replaces the stored tag.
- The `stripe-signature` check is `if (!sig)`, so an empty header counts as
  missing, just like an absent one (`HasSignature`).

Other choices:

- `Apply` leaves the store alone for an org id it does not hold, because the
  identity provider does not create organizations on update.
- A `PLAN_BY_PRICE` key such as `"constructor"` yields an inherited, truthy
  non-plan value. It matches neither `'pro'` nor `'enterprise'`, so it behaves
  exactly like an unknown price, which is how `ResolvePlan` treats it.
- Toggling a task id shared by several tasks gives all of them the negation of
  the first one's flag. So "toggle twice restores" needs unique ids, and
  `ToggleTwiceWithDuplicateIds` shows why.
- Dashboard project names come from the list length. Deleting and then creating
  can therefore repeat a name (`CreateAfterDeleteRepeatsName`).
- `Math.max()` over an empty project list is `-Infinity`; `LargestTeam` returns
  `None` there.

## Model

| member | source | states |
|---|---|---|
| `Entitlements.CanManageBilling` | contexts/settings-context.tsx:42-43 | true exactly for plan Enterprise, member type Admin and role set Enterprise; the `Billing` disjunct never decides |
| `Entitlements.CanManageDeveloper` | contexts/settings-context.tsx:45-46 | true exactly for plan Enterprise, member type Admin and role set Enterprise; the `Developer` disjunct never decides |
| `Entitlements.CanSeeBilling` | contexts/settings-context.tsx:36 | `canSeeBilling`: plan is Enterprise (properties in `SeeIsPlanGated`) |
| `Entitlements.CanSeeDeveloper` | contexts/settings-context.tsx:37 | `canSeeDeveloper`: plan is Enterprise (properties in `SeeIsPlanGated`) |
| `Entitlements.CanCreateProject` | contexts/settings-context.tsx:39 | `canCreateProject`: member type is Admin (properties in `ProjectRightsAreRoleGated`) |
| `Entitlements.CanDeleteProject` | contexts/settings-context.tsx:40 | `canDeleteProject`: member type is Admin (properties in `ProjectRightsAreRoleGated`) |
| `Entitlements.CanPerform` | contexts/settings-context.tsx:36-46 | the capability gate: every capability is granted exactly when its row of an independent rule table (top plan / admin role / expanded role set) is met |
| `Entitlements.SeeIsPlanGated` | contexts/settings-context.tsx:36-37 | seeing billing and developer depends on the plan only, and holds iff the plan is Enterprise |
| `Entitlements.ProjectRightsAreRoleGated` | contexts/settings-context.tsx:39-40 | creating and deleting projects depends on the member type only, and holds iff it is Admin |
| `Entitlements.ManageImpliesSeeAndAdmin` | contexts/settings-context.tsx:36-46 | managing billing (developer) implies seeing billing (developer) and both project rights; the two manage rights coincide |
| `Entitlements.DedicatedRoleDoesNotManage` | contexts/settings-context.tsx:42-46 | a Billing or Developer member never manages billing or developer settings and has no project rights |
| `Entitlements.GetMemberLimit` | contexts/settings-context.tsx:48-59 | total over plans; a finite limit is at least 1; unlimited exactly for Enterprise |
| `Entitlements.GetPlanPrice` | contexts/settings-context.tsx:61-72 | total over plans; the price is 0 exactly for Free |
| `Entitlements.CatalogValues` | contexts/settings-context.tsx:48-72 | Free is 1 member at $0, Pro 10 at $10, Enterprise unlimited at $200 |
| `Entitlements.CatalogMonotone` | contexts/settings-context.tsx:48-72 | going up Free, Pro, Enterprise never lowers the limit (unlimited on top); price order matches tier order and determines the plan |
| `Webhook.UpdateFor` | app/api/stripe/route.ts:54-69 | a resolved plan writes its own tag, with 10 members for pro and 0 for enterprise |
| `Webhook.FirstPriceId` | app/api/stripe/route.ts:41-43 | the price id of the first line item; none for an empty list or a null price |
| `Webhook.ResolvePlan` | app/api/stripe/route.ts:44 | a plan is resolved exactly when a price id is present and in the price table, and it is the table's entry |
| `Webhook.Handle` | app/api/stripe/route.ts:18-83 | responds 400 exactly on an absent or empty header or a rejected signature, else acknowledges; a write only comes with an acknowledgement and targets the event's client reference |
| `Webhook.HasSignature` | app/api/stripe/route.ts:24-25 | the header is present and non-empty, the truthiness `!sig` tests (used by `Handle` and `MissingSignatureRejected`) |
| `Webhook.Apply` | app/api/stripe/route.ts:56-60 | a write to an existing org replaces its ceiling, replaces its plan tag only when metadata is sent, and leaves every other org and the id set unchanged |
| `Webhook.Deliver` | app/api/stripe/route.ts:18-83 | delivering a request never adds or removes orgs, and a 400 response leaves the store unchanged |
| `Webhook.MissingSignatureRejected` | app/api/stripe/route.ts:24-25 | an absent or empty signature header gives 400 "Missing stripe-signature" and no write, whatever the oracles say |
| `Webhook.InvalidSignatureRejected` | app/api/stripe/route.ts:27-33 | a rejected signature gives 400 with the verifier's message and no write |
| `Webhook.CheckoutOutcome` | app/api/stripe/route.ts:38-49 | a verified checkout is acknowledged; it writes iff the first price id is in the table, else nothing |
| `Webhook.CheckoutPerPlan` | app/api/stripe/route.ts:54-69 | the Pro price writes 10 members and 'pro'; the Enterprise price writes 0 and 'enterprise' |
| `Webhook.OnlyFirstLineItemCounts` | app/api/stripe/route.ts:41-44 | two line-item lists with the same first item give the same outcome |
| `Webhook.CancellationOutcome` | app/api/stripe/route.ts:74-80 | a deleted subscription writes 2 members and sends no metadata, whatever the line items |
| `Webhook.OtherEventsIgnored` | app/api/stripe/route.ts:82 | any other verified event type is acknowledged with no write |
| `Webhook.ApplyIdempotent` | app/api/stripe/route.ts:56-60 | applying the same write twice equals applying it once |
| `Webhook.ApplyLastWriteWins` | app/api/stripe/route.ts:56-80 | of two writes to one org the last ceiling remains; the last plan tag sent remains, and a write sending none keeps the earlier tag |
| `Webhook.CancellationKeepsPlanTag` | app/api/stripe/route.ts:54-80 | a Pro checkout followed by a cancellation leaves ceiling 2 with the 'pro' tag still stored |
| `Webhook.DeliverIdempotent` | app/api/stripe/route.ts:18-83 | redelivering the same request leaves the store as one delivery does |
| `Webhook.CheckoutCeilingMatchesCatalog` | app/api/stripe/route.ts:54-69 | read with 0 as unlimited, each paid checkout writes the catalog's limit for that plan |
| `Webhook.CancellationCeilingDiffersFromFree` | app/api/stripe/route.ts:74-80 | the cancellation ceiling (2) is not the Free plan's catalog limit (1) |
| `Text.TrimEmptyIffBlank` | components/project-detail-page.tsx:150 | `title.trim()` is empty exactly when every character is ECMAScript whitespace |
| `Text.Trim` | components/project-detail-page.tsx:150 | `trim()`: a non-empty result starts and ends with a non-whitespace character |
| `Text.DecimalRoundTrip` | components/circular-dashboard.tsx:49 | reading back the decimal rendering of n gives n |
| `ProjectDetail.PatchTask` | components/project-detail-page.tsx:167 | each of the five fields is the patch's value when present and the task's otherwise; an empty patch changes nothing |
| `ProjectDetail.CreateTask` | components/project-detail-page.tsx:149-162 | a blank title changes nothing; otherwise exactly one open task with the fresh id is appended after the unchanged old tasks, and the dialog is cleared and closed |
| `ProjectDetail.UpdateTasks` | components/project-detail-page.tsx:164-169 | same length and order; each task is patched iff its id matches |
| `ProjectDetail.UpdateTask` | components/project-detail-page.tsx:164-169 | only the task list of the project changes |
| `ProjectDetail.UpdateChangesOnlyMatching` | components/project-detail-page.tsx:164-169 | tasks with other ids are untouched; an absent id leaves the list equal |
| `ProjectDetail.DeleteTasks` | components/project-detail-page.tsx:171-176 | a task remains iff it was there with another id; no task with the id remains |
| `ProjectDetail.DeleteTask` | components/project-detail-page.tsx:171-176 | only the task list changes, and it no longer holds the id |
| `ProjectDetail.DeleteRemovesExactly` | components/project-detail-page.tsx:174 | the length drops by exactly the number of tasks with the id; an absent id leaves the list equal |
| `ProjectDetail.DeleteDistributes` | components/project-detail-page.tsx:174 | deleting from a concatenation deletes from each part, so order is kept |
| `ProjectDetail.FindTask` | components/project-detail-page.tsx:180 | finds the first task of the list with that id, and finds none exactly when no task has it |
| `ProjectDetail.ToggleTasks` | components/project-detail-page.tsx:178-182 | toggling keeps the length (contents: the lemmas below) |
| `ProjectDetail.ToggleTask` | components/project-detail-page.tsx:178-182 | only the task list of the project changes |
| `ProjectDetail.ToggleFlipsOnlyMatching` | components/project-detail-page.tsx:178-182 | with unique ids the matching task's flag is negated and every other task is unchanged |
| `ProjectDetail.ToggleAbsentIsIdentity` | components/project-detail-page.tsx:178-182 | toggling an id no task has leaves the list equal |
| `ProjectDetail.ToggleTwiceRestores` | components/project-detail-page.tsx:178-182 | with unique ids, toggling twice restores the list |
| `ProjectDetail.CreateKeepsUniqueIds` | components/project-detail-page.tsx:149-162 | creating a task whose id no task has keeps the ids unique |
| `ProjectDetail.UpdateKeepsUniqueIds` | components/project-detail-page.tsx:164-169 | an update that sends no id, as the title and description edits do, keeps the ids unique |
| `ProjectDetail.ToggleKeepsUniqueIds` | components/project-detail-page.tsx:178-182 | toggling keeps the ids unique |
| `ProjectDetail.DeleteKeepsUniqueIds` | components/project-detail-page.tsx:171-176 | deleting keeps the ids unique |
| `ProjectDetail.ToggleTwiceWithDuplicateIds` | components/project-detail-page.tsx:178-182 | with a shared id and differing flags, toggling twice does not restore the list |
| `ProjectDetail.CompletedCount` | components/project-detail-page.tsx:184 | completed never exceeds total; equals total iff all are done, 0 iff none is |
| `ProjectDetail.CompletedAppend` | components/project-detail-page.tsx:184 | the completed count is additive over concatenation, so with the one-task cases it is the number of completed tasks on every list |
| `ProjectDetail.RoundRatio` | components/project-detail-page.tsx:186 | the result is within half of a / b, ties rounded up, as `Math.round` does |
| `ProjectDetail.CompletionPercentage` | components/project-detail-page.tsx:184-186 | in [0, 100]; 0 with no tasks or none done; 100 when all are done; otherwise the nearest integer to 100 * completed / total |
| `ProjectDetail.PercentBounds` | components/project-detail-page.tsx:186 | a rounded share of c out of t with c <= t lies in [0, 100] and is exact at both ends |
| `ProjectDetail.SeedDraft` | components/project-detail-page.tsx:120-125 | the edit buffer starts with all seven fields of the loaded project, its tasks included |
| `ProjectDetail.SaveProjectAsWritten` | components/project-detail-page.tsx:142-147 | an incomplete draft changes nothing; a complete one takes name, status and description from the draft, every other field from the draft when present (tasks included) and from the project otherwise, and ends editing |
| `ProjectDetail.SaveAsWrittenRevertsTasks` | components/project-detail-page.tsx:144 | adding a task and then saving a rename loses the added task |
| `ProjectDetail.SaveProject` | components/project-detail-page.tsx:142-147 | an incomplete draft changes nothing; a complete one sets name, status and description from the draft, keeps tasks and other fields, and ends editing |
| `ProjectDetail.SaveKeepsTasks` | components/project-detail-page.tsx:142-147 | saving never changes the task list, also after an update or a delete |
| `ProjectDetail.SaveAgreesOnFreshDraft` | components/project-detail-page.tsx:142-147 | on a draft seeded from the current project both saves give the same result |
| `Dashboard.NewProjectName` | components/circular-dashboard.tsx:49 | the name is "New Project " followed by the decimal digits of n, without leading zeros |
| `Dashboard.NewProjectNamesDistinct` | components/circular-dashboard.tsx:49 | lists of different lengths give different new-project names |
| `Dashboard.DeleteProject` | components/circular-dashboard.tsx:39-43 | a non-Admin changes nothing; for an Admin a project remains iff it was there with another id |
| `Dashboard.RemoveId` | components/circular-dashboard.tsx:41 | a project remains iff it was there with another id |
| `Dashboard.RemoveIdDistributes` | components/circular-dashboard.tsx:41 | removal from a concatenation removes from each part, so order is kept |
| `Dashboard.CreateProject` | components/circular-dashboard.tsx:45-56 | a non-Admin changes nothing; for an Admin exactly one active project with 0 tasks, 1 member and the name "New Project " plus the new length in decimal (no leading zeros) is appended after the unchanged list |
| `Dashboard.CreateAfterDeleteRepeatsName` | components/circular-dashboard.tsx:39-56 | create, create, delete the first new one, create: two projects share a name |
| `Dashboard.NavEntries` | components/circular-dashboard.tsx:73-113 | Home and Projects are always in the sidebar |
| `Dashboard.MainPanel` | components/circular-dashboard.tsx:159-312 | Home and Projects always render their panel; any panel shown is the selected one (Billing and Developer: `PaidSectionsIffEnterprise`) |
| `Dashboard.PaidSectionsIffEnterprise` | components/circular-dashboard.tsx:92-112 | Billing and Developer are in the sidebar, and their panels render, iff the plan is Enterprise |
| `Dashboard.ActiveCount` | components/circular-dashboard.tsx:236 | the active count never exceeds the project count, and is 0 iff no project has status "active"; with `ActiveAppend` this fixes the count on every list |
| `Dashboard.ActiveAppend` | components/circular-dashboard.tsx:236 | the active count is additive over concatenation |
| `Dashboard.FoldIsSum` | components/circular-dashboard.tsx:246 | the left fold from acc equals acc plus the sum of per-project task counts |
| `Dashboard.FoldTasks` | components/circular-dashboard.tsx:246 | the `reduce` left fold itself (its meaning is in `FoldIsSum`) |
| `Dashboard.TotalTasks` | components/circular-dashboard.tsx:246 | the "Total Tasks" figure equals the sum of the cards' task counts |
| `Dashboard.TotalTasksIsSum` | components/circular-dashboard.tsx:246 | the displayed total is the sum of task counts; creating a project leaves it unchanged |
| `Dashboard.CreateCounts` | components/circular-dashboard.tsx:234-236 | a permitted create raises both the total and the active count by one |
| `Dashboard.LargestTeam` | components/circular-dashboard.tsx:256 | none exactly for an empty list; otherwise some project's member count, at least every other one |
| `SettingsPage.RemainingInvites` | components/settings-page.tsx:21 | "Unlimited" iff the limit is unlimited; otherwise remaining plus current equals the limit |
| `SettingsPage.CanInviteMore` | components/settings-page.tsx:20 | unlimited, or fewer current members than the limit (related to the badge in `CanInviteIffRemaining`) |
| `SettingsPage.CanInviteIffRemaining` | components/settings-page.tsx:19-21 | inviting is allowed iff the badge shows Unlimited or a positive count |
| `SettingsPage.HandleInvite` | components/settings-page.tsx:23-29 | invites exactly for a non-empty email with room left, then clears the field; otherwise the field is kept |
| `SettingsPage.InviteButtonMatchesHandler` | components/settings-page.tsx:139 | the Invite button is enabled iff clicking would invite |
| `SettingsPage.InviteButtonEnabled` | components/settings-page.tsx:139 | enabled unless the email is empty or no invite is left (agreement with the handler in `InviteButtonMatchesHandler`) |
| `SettingsPage.PlanInviteQuota` | components/settings-page.tsx:19-21 | on the plan's own limit: Enterprise always invites, Pro below 10 members, Free below 1 |
| `SettingsPage.InviteFormForProjectCreators` | components/settings-page.tsx:127 | the invite form is shown to exactly the members who may create projects |
| `SettingsPage.InviteFormShown` | components/settings-page.tsx:127 | the invite form shows for Admins (agreement with `canCreateProject` in `InviteFormForProjectCreators`) |
| `SettingsPage.RoleOptions` | components/settings-page.tsx:79-88 | the selector always starts with Admin and Member |
| `SettingsPage.RoleOptionsByRoleSet` | components/settings-page.tsx:80-87 | a role is offered iff it is Admin or Member or the role set is Enterprise |
| `SettingsPage.StaleRoleIsLeastPrivileged` | components/settings-page.tsx:82-87 | a role the current role set does not offer holds no create, delete or manage right |
| `SettingsPage.BadgesMatchCapabilities` | components/settings-page.tsx:170-199 | "Available" agrees with canSeeBilling/canSeeDeveloper, "Yes" with canCreateProject/canDeleteProject |
| `SettingsPage.SectionBadge` | components/settings-page.tsx:173 | "Available" on Enterprise, else "Enterprise Only" (agreement in `BadgesMatchCapabilities`) |
| `SettingsPage.PermissionBadge` | components/settings-page.tsx:191 | "Yes" for Admin, else "Admin Only" (agreement in `BadgesMatchCapabilities`) |
| `SettingsPage.PlanLabelsMatchCatalog` | components/settings-page.tsx:53-55 | the selector's hard-coded prices are the catalog's prices |
| `SettingsPage.LimitText` | components/settings-page.tsx:97 | "Unlimited" for no limit; otherwise the decimal digits of the limit, without leading zeros |

## Findings

| source | as written | input that shows it | evidently intended | confidence | as-written member | corrected member |
|---|---|---|---|---|---|---|
| components/project-detail-page.tsx:124, 142-147 | the edit buffer is seeded once with the whole loaded project, tasks included, and saving spreads all of it over the project | load a project, create a task, rename the project, save: the new task is gone | saving merges only the edited name, status and description and keeps the current tasks | medium, not executed | `ProjectDetail.SaveProjectAsWritten`, `ProjectDetail.SaveAsWrittenRevertsTasks` | `ProjectDetail.SaveProject`, `ProjectDetail.SaveKeepsTasks` |

## Left out

- Rendering, routing, React state and hooks, `console.log` of secrets, and the marketing, pricing, billing and developer pages: they hold no decision logic.
- The HMAC inside `constructEvent` and the network calls `listLineItems` and `updateOrganization` are oracles or outputs. A thrown error from either call escapes the handler and the framework answers 500. That path is not modelled.
- The missing `client_reference_id`: the handler force-unwraps it and promises nothing, so the event's reference is a plain string. A subscription object carries no such field either; which id Stripe delivers there is outside the model.
- Concurrent deliveries for one organization. Their order is not controlled by the code; `ApplyLastWriteWins` states what any order gives.
- `ProjectDetail.CompletionPercentage`: exact half-up rounding of the rational 100 * completed / total. Floating-point error in `completedTasks / totalTasks * 100` is not modelled.
- Clerk `has({permission})` checks that show or hide the create-task and delete-task buttons: they gate rendering, not the handlers.
- Finding the project by id on load (`mockProjectsWithTasks.find`) and the "Project not found" page are not modelled.
- The plan, role-set and member-type setters of the settings context only store their argument.
