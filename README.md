# Cargo loading and logistics: a Dafny model

This project models the core of a small logistics application. Warehouse staff record incoming cargo. A server plans which trucks carry it. Web pages manage the truck fleet, the customers and the user accounts.

What is modelled:

- **The server's loading planner** (`Loading`, server/index.js): the request guards of `POST /api/trucks/load`, the inline truck catalog and `optimizeLoading`. The packer sorts cargo by non-increasing volume. It then, round by round, fills every truck type first-fit and commits the first type that admits the most items. When nothing fits anywhere, it puts the largest remaining item alone on the largest truck. `OptimizeLoading` is the loop as written. It is proved equal to the specification function `Plan`, and the lemmas about `Plan` state the packer's guarantees:
  - a partition of the input;
  - every truck within its limits;
  - at most one truck per item;
  - volume order inside each truck;
  - exactly when the fallback fires.
- **The shared domain arithmetic** (`CargoTypes`, src/types/CargoTypes.ts): the record types, the truck catalog, the five-band density classifier, the customer-tier weight and the additive priority score.
- **The cargo intake form** (`InputCargo`, src/pages/InputCargoPage.tsx): the volume, the page's own classifier, the density read-out, the submit guards and the record built on confirmation.
- **The fleet page** (`TruckManagement`), **the customer page** (`CustomerManagement`) and **the account page** (`AccountManagement`). Each page is a class whose list, edit target and form fields its handlers replace. The new lists come from pure `map`/`filter` functions.
- **The cargo store** (`CargoContext`, src/context/CargoContext.tsx): the warehouse, history and truck lists with their local fallbacks when a server call fails, plus the `loading` flag.
- **The login session** (`AuthContext`, src/context/AuthContext.tsx, with `UserTypes`): default-administrator seeding, login, logout, permission checks and password change over the `users`/`currentUser` storage entries.
- `Text` holds the JavaScript string operations the pages rely on: `trim`, `toLowerCase` and `includes`.

Numbers are Dafny `real`s, so there is no floating-point rounding. Timestamps used in arithmetic are integer milliseconds. Generated ids, the current time, server outcomes, confirmation dialogs and stored values are parameters.

Three facts about the code that the model keeps as written:
- the packer never uses the priority score of `calculateCargoPriority`;
- the packer breaks ties between truck types by catalog order alone, with no weight criterion;
- the fallback truck is the last entry of the server's own catalog constant (server/index.js:311), not of the packer's `truckTypes` parameter.

## Model

| member | source | states |
|---|---|---|
| Loading.LargestTruckIsLargest | server/index.js:246-268 | the last catalog entry has the greatest load limit and the greatest volume |
| Loading.SortByVolume | server/index.js:273 | the sorted pool is a permutation of the input |
| Loading.SortSorted | server/index.js:273 | the sorted pool is in non-increasing volume order |
| Loading.SortKeepsIdsUnique | server/index.js:273 | sorting keeps ids distinct |
| Loading.Fill | server/index.js:281-293 | a trial never admits more items than the pool holds |
| Loading.FillWithinLimits | server/index.js:282-293 | the running weight and volume are the sums of the admitted items; a non-empty trial is within the type's load limit and its length×width×height |
| Loading.FillMembers | server/index.js:286-289 | every admitted item comes from the pool |
| Loading.FillAppend | server/index.js:286-293 | one more item is either appended to the trial or skipped, and the earlier admissions stay as they were |
| Loading.FillEmptyIff | server/index.js:286-293 | a trial admits nothing exactly when no pool item fits the type on its own |
| Loading.FillKeepsAdmitted | server/index.js:286-293 | admissions are never undone: the trial of a longer prefix of the pool extends the trial of a shorter one |
| Loading.FillMaximal | server/index.js:286-293 | first-fit, not first-fail: with non-negative weights and volumes, every pool item that would still fit beside the final totals was admitted, so the scan skips a misfit and goes on |
| Loading.FirstFitExample | server/index.js:286-293 | an item too heavy for the light truck is skipped and a later item is still admitted |
| Loading.FillSorted | server/index.js:286-289 | a trial over a volume-sorted pool is volume-sorted |
| Loading.Remove | server/index.js:306-308 | removing committed items never grows the pool |
| Loading.RemoveMembers | server/index.js:306-308 | what stays is exactly the pool items whose id is not among the committed ones |
| Loading.CommitShrinks | server/index.js:301-308 | committing a non-empty trial strictly shrinks the pool, so the loop terminates |
| Loading.RemoveKeepsOrder | server/index.js:306-308 | the filter keeps the pool volume-sorted |
| Loading.RemoveKeepsIds | server/index.js:306-308 | the filter keeps ids distinct |
| Loading.FillPartition | server/index.js:286-308 | with distinct ids, the pool is exactly the committed trial plus what the filter keeps |
| Loading.FirstMax | server/index.js:295-298 | the winner has a positive count that no count exceeds, and every earlier count is strictly smaller; there is none exactly when all counts are zero |
| Loading.BestIndex | server/index.js:295-298 | the chosen type exists and admits at least one item |
| Loading.BestIndexSpec | server/index.js:295-298 | the chosen type admits the most items and is the first in catalog order to do so; no type is chosen exactly when every trial is empty |
| Loading.PlanPartition | server/index.js:275-317 | with distinct ids every item is on exactly one truck, none dropped or duplicated |
| Loading.PlanLoadsValid | server/index.js:284-316 | every truck is non-empty and is either one of the given types within its limits or a fallback truck |
| Loading.PlanLength | server/index.js:275-317 | there are never more trucks than items |
| Loading.PlanLoadsSorted | server/index.js:273-316 | over a volume-sorted pool, every truck's items are in non-increasing volume order |
| Loading.FallbackRound | server/index.js:301-316 | the fallback fires exactly when no remaining item fits any type on its own, and its item is the largest remaining one |
| Loading.FallbackStep | server/index.js:309-316 | a fallback round emits the last server type carrying only the first remaining item and drops that item |
| Loading.CommitRound | server/index.js:301-308 | a normal round emits the chosen type with its trial and continues on the filtered pool |
| Loading.PlanDrawsFromPool | server/index.js:275-317 | every loaded item comes from the pool |
| Loading.PackerGuarantees | server/index.js:271-321 | for any input, the plan of the sorted input is a partition (given distinct ids), draws only from the input, has at most one truck per item, and every truck is volume-sorted and valid |
| Loading.Plan | server/index.js:275-317 | defines the plan (no `ensures` of its own): each round commits the first type whose trial admits the most items and removes them from the pool, or, when no type admits anything, ships the first (largest) item alone on the largest truck; the lemmas above state its properties |
| Loading.TrialLoad | server/index.js:281-293 | the inner loop's list equals the first-fit trial `Fill` |
| Loading.ChooseTruck | server/index.js:276-299 | the scan over the types returns the type and list of `BestIndex`, or nothing when every trial is empty |
| Loading.OptimizeLoading | server/index.js:271-321 | the loop returns `Plan` of the volume-sorted input, and therefore a partition (given distinct ids), at most one truck per item, volume-sorted and valid trucks |
| Loading.SelectRequested | server/index.js:237-239 | the selected rows are exactly the table rows with a requested id in warehouse status, and they keep distinct ids |
| Loading.LoadCargo | server/index.js:228-243 | refuses a missing or empty id list, then a request matching no warehouse row, and otherwise plans exactly the selected rows over the server catalog |
| CargoTypes.CatalogIsConsistent | src/types/CargoTypes.ts:64-89 | three types; each type's maximum volume is length×width×height; the load limits strictly increase, so the last type is the heaviest |
| CargoTypes.ClassName | src/types/CargoTypes.ts:24 | every class has a non-empty name |
| CargoTypes.ClassNameInjective | src/types/CargoTypes.ts:24 | distinct classes have distinct names |
| CargoTypes.DensityClass | src/types/CargoTypes.ts:97-107 | the class is the first band, in rank order, whose upper bound the density does not exceed |
| CargoTypes.DensityClassMonotone | src/types/CargoTypes.ts:97-107 | a denser load never gets a lighter class |
| CargoTypes.DensityBoundaries | src/types/CargoTypes.ts:97-107 | each bound 100, 200, 250 and 350 kg/m³ belongs to the lighter band |
| CargoTypes.CalculateCargoType | src/types/CargoTypes.ts:92-108 | volume zero gives the light class; otherwise the class is the first band holding weight×1000/volume |
| CargoTypes.GetCustomerPriority | src/types/CargoTypes.ts:111-118 | small, medium and large map to 1, 2 and 3 |
| CargoTypes.CustomerPriorityOrdered | src/types/CargoTypes.ts:111-118 | small < medium < large |
| CargoTypes.CeilDays | src/types/CargoTypes.ts:138 | the ceiling of a millisecond difference in days |
| CargoTypes.FloorDays | src/types/CargoTypes.ts:166 | the floor of a millisecond difference in days |
| CargoTypes.DeadlineBand | src/types/CargoTypes.ts:140-155 | between 200 and 600; 600 exactly when the deadline has passed; 200 exactly when it is more than 7 days away |
| CargoTypes.DeadlineBandMonotone | src/types/CargoTypes.ts:140-155 | a nearer deadline never earns fewer points |
| CargoTypes.ArrivalBonus | src/types/CargoTypes.ts:167 | at most 30 and at most the days since arrival, and equal to one of them |
| CargoTypes.FindCustomer | src/types/CargoTypes.ts:159 | found exactly when the cargo names a customer id present in the list; the result is the first such customer |
| CargoTypes.TierPoints | src/types/CargoTypes.ts:159-162 | the customer contribution is 0, 50, 100 or 150, and 0 exactly when no stored customer has the cargo's customer id |
| CargoTypes.TierStepAddsFifty | src/types/CargoTypes.ts:158-162 | moving the cargo's customer (the first with its id) to another tier changes the score by exactly 50 per tier level |
| CargoTypes.PriorityScore | src/types/CargoTypes.ts:121-170 | defines the score (no `ensures` of its own) as the sum of the urgent, carry-over, deadline, customer-tier and arrival contributions; `CalculateCargoPriority` and the lemmas around it state its properties |
| CargoTypes.CalculateCargoPriority | src/types/CargoTypes.ts:121-170 | the accumulated score equals the additive score, and never exceeds 1000+800+600+150+30 |
| CargoTypes.UrgentAddsThousand | src/types/CargoTypes.ts:125-127 | marking a non-urgent cargo urgent adds exactly 1000 |
| CargoTypes.CarryOverAddsEightHundred | src/types/CargoTypes.ts:130-132 | marking a cargo carried over adds exactly 800 |
| CargoTypes.NearerDeadlineNeverLowers | src/types/CargoTypes.ts:135-156 | for a cargo with a deadline, an earlier deadline never lowers the score |
| CargoTypes.EarlierArrivalNeverLowers | src/types/CargoTypes.ts:164-167 | an earlier arrival never lowers the score, and raises it by at most the bonus still missing below 30 |
| CargoTypes.CeilDaysMonotone | src/types/CargoTypes.ts:138 | the day ceiling is monotone |
| CargoTypes.FloorDaysMonotone | src/types/CargoTypes.ts:166 | the day floor is monotone |
| UserTypes.Ids | src/types/UserTypes.ts:12-16 | the set of ids is exactly the ids of the list's permissions |
| UserTypes.RolePermissions | src/types/UserTypes.ts:30-55 | defines each role's permission list; every granted permission is one of the nine, and every role holds the home page and cargo input |
| UserTypes.PermissionIdsDistinct | src/types/UserTypes.ts:18-28 | the nine permissions have distinct ids |
| UserTypes.AdminAndManagerPermissions | src/types/UserTypes.ts:30-41 | the admin role holds all nine permissions; the manager role holds all but account management |
| UserTypes.RolesNested | src/types/UserTypes.ts:30-54 | customer ⊆ operator ⊆ manager ⊆ admin |
| UserTypes.OnlyAdminManagesAccounts | src/types/UserTypes.ts:30-54 | a role holds account management, by value or by id, exactly when it is admin |
| UserTypes.GetRoleDisplayName | src/types/UserTypes.ts:57-65 | every role has a non-empty display name |
| UserTypes.RoleDisplayNamesDistinct | src/types/UserTypes.ts:57-65 | two roles share a display name only when they are the same role |
| InputCargo.CalculateVolume | src/pages/InputCargoPage.tsx:26-28 | positive dimensions give a positive volume; a zero dimension gives zero |
| InputCargo.VolumeZeroIff | src/pages/InputCargoPage.tsx:26-28 | for nonnegative dimensions, the volume is zero exactly when a dimension is |
| InputCargo.PageCargoType | src/pages/InputCargoPage.tsx:30-46 | empty exactly at volume zero; otherwise the name of the density band |
| InputCargo.ClassifiersAgreeExceptAtZeroVolume | src/pages/InputCargoPage.tsx:30-46 | the page's classifier and the shared one agree on every nonzero volume; at zero the page gives none and the shared one says light |
| InputCargo.PreviewType | src/pages/InputCargoPage.tsx:49-57 | a class is shown exactly when the volume and the weight are both positive, and it is the density band's name |
| InputCargo.GetDensityInfo | src/pages/InputCargoPage.tsx:140-149 | absent exactly when the volume or the weight is zero; otherwise density × volume = weight × 1000 |
| InputCargo.HandleSubmit | src/pages/InputCargoPage.tsx:78-94 | refuses a non-positive dimension, then a non-positive weight, and otherwise asks for confirmation, each exactly in its case |
| InputCargo.ConfirmSubmit | src/pages/InputCargoPage.tsx:96-107 | the record carries the form's fields and the given id, with no truck, customer or deadline |
| InputCargo.AcceptedCargoIsClassified | src/pages/InputCargoPage.tsx:78-107 | an accepted form yields a positive volume equal to the dimensions' product, and a non-empty class equal to both the shared classifier's class and the preview |
| TruckManagement.Validate | src/pages/TruckManagementPage.tsx:43-51 | refuses a non-positive limit or negative self weight, then a self weight reaching the load limit, each exactly in its case; an accepted form leaves positive remaining capacity |
| TruckManagement.EditedTruck | src/pages/TruckManagementPage.tsx:57-65 | the edited truck keeps its id, status and creation time, takes the form's fields, and is well formed when the form was accepted |
| TruckManagement.NewTruck | src/pages/TruckManagementPage.tsx:69-75 | a new truck is available, has the given id and time, takes the form's fields, and is well formed when the form was accepted |
| TruckManagement.ApplyEdit | src/pages/TruckManagementPage.tsx:57-65 | only trucks with the edited id change, and nothing is added or removed |
| TruckManagement.WithoutTruck | src/pages/TruckManagementPage.tsx:102-106 | what stays is exactly the trucks with another id |
| TruckManagement.WithoutTruckKeepsOrder | src/pages/TruckManagementPage.tsx:104 | deletion keeps the order of the rest |
| TruckManagement.WithoutAbsentTruck | src/pages/TruckManagementPage.tsx:104 | deleting an unknown id changes nothing |
| TruckManagement.SetStatus | src/pages/TruckManagementPage.tsx:108-112 | only the trucks with that id change, and only in their status |
| TruckManagement.EditKeepsWellFormed | src/pages/TruckManagementPage.tsx:53-65 | an accepted edit keeps every truck with remaining capacity = limit − self weight > 0 |
| TruckManagement.AddKeepsWellFormed | src/pages/TruckManagementPage.tsx:53-76 | an accepted addition keeps every truck well formed |
| TruckManagement.DeleteKeepsWellFormed | src/pages/TruckManagementPage.tsx:102-106 | deletion keeps every truck well formed |
| TruckManagement.SetStatusKeepsWellFormed | src/pages/TruckManagementPage.tsx:108-112 | a status change keeps every truck well formed |
| TruckManagement.StatsSumToTotal | src/pages/TruckManagementPage.tsx:134-140 | the four status counts add up to the total |
| TruckManagement.CountStatus | src/pages/TruckManagementPage.tsx:136-139 | a status count is at most the number of trucks |
| TruckManagement.SetStatusMovesCount | src/pages/TruckManagementPage.tsx:108-140 | with distinct ids, a status change moves one truck from the old status's count to the new one's |
| TruckManagement.FilteredTrucks | src/pages/TruckManagementPage.tsx:33-38 | a truck is shown exactly when its name or notes contain the term, ignoring letter case, and its status passes the filter |
| TruckManagement.FilteredTrucksKeepsOrder | src/pages/TruckManagementPage.tsx:33-38 | the filter keeps the order and repetitions of what it shows: it distributes over concatenation |
| TruckManagement.EmptySearchShowsAll | src/pages/TruckManagementPage.tsx:33-38 | an empty term with all statuses shows the whole fleet in order |
| TruckManagement.TruckManagementPage.constructor | src/pages/TruckManagementPage.tsx:6-26 | the page starts with the stored trucks, or none when nothing is stored, no truck under edit and the empty form |
| TruckManagement.TruckManagementPage.HandleEdit | src/pages/TruckManagementPage.tsx:90-100 | the list is unchanged, the truck is put under edit and the form holds its name, limits, self weight and notes (empty when absent) |
| TruckManagement.TruckManagementPage.HandleSubmit | src/pages/TruckManagementPage.tsx:40-88 | a refused form changes nothing; otherwise the edit or the prepended new truck, a reset form, and well-formed trucks stay well formed |
| TruckManagement.TruckManagementPage.HandleDelete | src/pages/TruckManagementPage.tsx:102-106 | after confirmation the trucks with that id are gone; otherwise nothing changes |
| TruckManagement.TruckManagementPage.UpdateTruckStatus | src/pages/TruckManagementPage.tsx:108-112 | the list becomes the status-updated list, and well-formed trucks stay well formed |
| CargoContext.FindById | src/context/CargoContext.tsx:113 | absent exactly when no item has the id; otherwise the first item with that id |
| CargoContext.WithoutId | src/context/CargoContext.tsx:115 | what stays is exactly the items with another id |
| CargoContext.WithoutFoundId | src/context/CargoContext.tsx:113-115 | with distinct ids, removing the found id takes out exactly that item |
| CargoContext.Move | src/context/CargoContext.tsx:113-117 | the source keeps exactly its items with another id; nothing changes when it lacks the id; otherwise the target grows by one item in front, the first source item with the id |
| CargoContext.MoveKeepsCargo | src/context/CargoContext.tsx:113-117 | with distinct ids in the source, the combined multiset of the two lists is preserved and the source no longer holds the id |
| CargoContext.StripCargo | src/context/CargoContext.tsx:155-157 | each truck keeps its place and loses only the cargo with that id |
| CargoContext.DropEmpty | src/context/CargoContext.tsx:158 | what stays is exactly the trucks with some cargo |
| CargoContext.DropEmptyKeepsOrder | src/context/CargoContext.tsx:158 | the filter keeps the order and repetitions of what it keeps: it distributes over concatenation |
| CargoContext.StripLeavesNoTrace | src/context/CargoContext.tsx:155-158 | afterwards no truck carries the id and no truck is empty, and each remaining truck is an old one minus that cargo |
| CargoContext.CargoStore.constructor | src/context/CargoContext.tsx:33-37 | the store starts with empty warehouse, history and truck lists, not loading and without an error |
| CargoContext.CargoStore.RefreshData | src/context/CargoContext.tsx:40-69 | takes the server's lists and clears the error; on failure sets the load error and restores each list that has a backup; leaves `loading` false |
| CargoContext.CargoStore.AddCargo | src/context/CargoContext.tsx:83-99 | on failure sets the add error, prepends the cargo to the warehouse and leaves history and trucks; otherwise refreshes; leaves `loading` false |
| CargoContext.CargoStore.ShipCargo | src/context/CargoContext.tsx:101-121 | on failure sets the ship error and moves the cargo from the warehouse to history when it is there, preserving the combined multiset; trucks unchanged; leaves `loading` false |
| CargoContext.CargoStore.LoadToTruck | src/context/CargoContext.tsx:123-136 | on failure only the error changes; otherwise refreshes; leaves `loading` false |
| CargoContext.CargoStore.UndoShipment | src/context/CargoContext.tsx:138-166 | on failure sets the undo error; when history holds the id, moves it back to the warehouse and strips it from every truck, so that no truck holds it or is empty; leaves `loading` false |
| AuthContext.DefaultAdmin | src/context/AuthContext.tsx:35-43 | the seeded account is the active "admin" with password "123" and all permissions, which are the admin role's |
| AuthContext.FindLogin | src/context/AuthContext.tsx:61 | found exactly when some stored account has that name and password and is active; the result is the first such account |
| AuthContext.ReplaceById | src/context/AuthContext.tsx:66 | only accounts with that id are replaced, and nothing is added or removed |
| AuthContext.ReplaceOwnRecord | src/context/AuthContext.tsx:66 | with distinct ids, replacing a stored account by an updated copy changes that account only |
| AuthContext.LoginTouchesOnlyLastLogin | src/context/AuthContext.tsx:63-67 | a successful login changes only the matched account's `lastLogin` in the store |
| AuthContext.ChangePasswordTouchesOnlyPassword | src/context/AuthContext.tsx:95-99 | when the session copy equals its stored account, only that account's password changes |
| AuthContext.ChangePasswordWritesBackSession | src/context/AuthContext.tsx:96-97 | when the stored account changed since login, the session's stale fields are written back over it |
| AuthContext.HoldsId | src/context/AuthContext.tsx:86 | true exactly when some permission in the list has the id |
| AuthContext.HasPermission | src/context/AuthContext.tsx:84-87 | false without a session; otherwise true exactly when the session's permission ids contain the id |
| AuthContext.AccountManagementOnlyForAdmins | src/context/AuthContext.tsx:84-87 | for an account holding its role's permissions, account management is granted exactly to admins |
| AuthContext.DefaultAdminHoldsEverything | src/context/AuthContext.tsx:35-43 | the seeded administrator passes every permission check |
| AuthContext.ValidateNewPassword | src/components/ChangePasswordModal.tsx:24-32 | refuses a mismatched confirmation, then a new password shorter than 3, each exactly in its case |
| AuthContext.AuthStore.constructor | src/context/AuthContext.tsx:32-54 | with no stored accounts exactly the default administrator is seeded, otherwise the store is untouched; a saved session is resumed |
| AuthContext.AuthStore.Login | src/context/AuthContext.tsx:56-76 | succeeds exactly when accounts are stored and the credentials open one; then stamps its `lastLogin` in the store and starts the session; otherwise changes nothing |
| AuthContext.AuthStore.Logout | src/context/AuthContext.tsx:78-82 | clears the saved session, the user and the flag, and keeps the stored accounts |
| AuthContext.AuthStore.ChangePassword | src/context/AuthContext.tsx:89-104 | succeeds exactly with a session, a matching old password and stored accounts; then stores the session copy with the new password; otherwise changes nothing |
| AccountManagement.Validate | src/pages/AccountManagementPage.tsx:43-58 | refuses a blank name, then a blank password, then a name another account holds, each exactly in its case |
| AccountManagement.EditedUser | src/pages/AccountManagementPage.tsx:62-73 | the edited account keeps its id, creation time and last login, and takes the form's fields and its role's permissions |
| AccountManagement.NewUser | src/pages/AccountManagementPage.tsx:77-85 | a new account has the given id and time, no login, the form's fields and its role's permissions |
| AccountManagement.EditById | src/pages/AccountManagementPage.tsx:62-73 | only the account with the edited id changes |
| AccountManagement.WithoutUser | src/pages/AccountManagementPage.tsx:117 | what stays is exactly the accounts with another id |
| AccountManagement.WithoutUserKeepsOrder | src/pages/AccountManagementPage.tsx:117 | deleting keeps the other accounts in stored order: it distributes over concatenation |
| AccountManagement.ToggleById | src/pages/AccountManagementPage.tsx:127-129 | only the accounts with that id change, and only by flipping their active flag |
| AccountManagement.EditKeepsUsernamesUnique | src/pages/AccountManagementPage.tsx:54-73 | an edit the duplicate check lets through keeps usernames distinct |
| AccountManagement.AddKeepsUsernamesUnique | src/pages/AccountManagementPage.tsx:54-86 | an addition the duplicate check lets through keeps usernames distinct |
| AccountManagement.OperationsKeepRoleConsistent | src/pages/AccountManagementPage.tsx:60-129 | edit, add, delete and toggle keep every account holding exactly its role's permissions |
| AccountManagement.RoleCountsSumToTotal | src/pages/AccountManagementPage.tsx:152-159 | the four role counts add up to the total |
| AccountManagement.CountRole | src/pages/AccountManagementPage.tsx:155-158 | a role count is at most the number of accounts |
| AccountManagement.CountActive | src/pages/AccountManagementPage.tsx:154 | the active count is at most the total, 0 exactly when no account is active, and the total exactly when all are |
| AccountManagement.ToggleMovesActiveCount | src/pages/AccountManagementPage.tsx:127-129 | with distinct ids, switching one account lowers the active count by one when it was active and raises it by one otherwise |
| AccountManagement.FilteredUsers | src/pages/AccountManagementPage.tsx:34-38 | an account is shown exactly when its name contains the term, ignoring letter case, and its role passes the filter |
| AccountManagement.FilteredUsersKeepsOrder | src/pages/AccountManagementPage.tsx:34-38 | the filter keeps the order and repetitions of what it shows: it distributes over concatenation |
| AccountManagement.AccountManagementPage.constructor | src/pages/AccountManagementPage.tsx:8-27 | the page starts with the stored accounts, or none when nothing is stored, no account under edit and the empty form |
| AccountManagement.AccountManagementPage.HandleEdit | src/pages/AccountManagementPage.tsx:99-108 | the list is unchanged, the account is put under edit and the form holds its username, password, role and active flag |
| AccountManagement.AccountManagementPage.HandleSubmit | src/pages/AccountManagementPage.tsx:40-97 | a refused form changes nothing; otherwise the edit or the prepended new account and a reset form; distinct usernames stay distinct |
| AccountManagement.AccountManagementPage.HandleDelete | src/pages/AccountManagementPage.tsx:110-119 | the logged-in account is never deleted; otherwise, after confirmation, the id is gone |
| AccountManagement.AccountManagementPage.ToggleUserStatus | src/pages/AccountManagementPage.tsx:121-130 | the logged-in account is never toggled; otherwise only that id's active flag flips |
| CustomerManagement.Accepts | src/pages/CustomerManagementPage.tsx:44-47 | a submission is accepted exactly when the name is not blank |
| CustomerManagement.EditedCustomer | src/pages/CustomerManagementPage.tsx:51-58 | the edited customer keeps its id and creation time, and takes the form's fields |
| CustomerManagement.NewCustomer | src/pages/CustomerManagementPage.tsx:62-66 | a new customer has the given id and time and the form's fields |
| CustomerManagement.EditById | src/pages/CustomerManagementPage.tsx:51-58 | only the customer with the edited id changes |
| CustomerManagement.WithoutCustomer | src/pages/CustomerManagementPage.tsx:93-97 | what stays is exactly the customers with another id |
| CustomerManagement.WithoutCustomerKeepsOrder | src/pages/CustomerManagementPage.tsx:95 | deletion keeps the order of the rest |
| CustomerManagement.TierCountsSumToTotal | src/pages/CustomerManagementPage.tsx:126-131 | the large, medium and small counts add up to the total |
| CustomerManagement.CountKind | src/pages/CustomerManagementPage.tsx:128-130 | a tier count is at most the number of customers |
| CustomerManagement.FilteredCustomers | src/pages/CustomerManagementPage.tsx:33-39 | a customer is shown exactly when its name, contact or address contains the term, ignoring letter case, and its tier passes |
| CustomerManagement.FilteredCustomersKeepsOrder | src/pages/CustomerManagementPage.tsx:33-39 | the table shows the matches in stored order: filtering distributes over concatenation |
| CustomerManagement.AllKindsIsSearchOnly | src/pages/CustomerManagementPage.tsx:33-39 | with the tier filter on all, the list is exactly the search matches, in order |
| CustomerManagement.EmptySearchShowsAll | src/pages/CustomerManagementPage.tsx:33-39 | an empty term with all tiers shows every customer in order |
| CustomerManagement.CustomerManagementPage.constructor | src/pages/CustomerManagementPage.tsx:6-26 | the page starts with the stored customers, or none when nothing is stored, no customer under edit and the empty form |
| CustomerManagement.CustomerManagementPage.HandleEdit | src/pages/CustomerManagementPage.tsx:81-91 | the list is unchanged, the customer is put under edit and the form holds its name, tier, contact, address and notes (empty strings when absent) |
| CustomerManagement.CustomerManagementPage.HandleSubmit | src/pages/CustomerManagementPage.tsx:41-79 | a blank name changes nothing; otherwise the edit or the prepended new customer and a reset form |
| CustomerManagement.CustomerManagementPage.HandleDelete | src/pages/CustomerManagementPage.tsx:93-97 | after confirmation the customers with that id are gone; otherwise nothing changes |
| Text.TrimStart | src/pages/AccountManagementPage.tsx:43 | the result is a suffix that does not start with white space, and what was cut off is all white space |
| Text.TrimEnd | src/pages/AccountManagementPage.tsx:43 | the result is a prefix that does not end with white space, and what was cut off is all white space |
| Text.TrimEmptyIffBlank | src/pages/AccountManagementPage.tsx:43-51 | the trimmed string is empty exactly when the string is all white space |
| Text.Lower | src/pages/AccountManagementPage.tsx:35 | lowering keeps the length and maps each character |
| Text.LowerIdempotent | src/pages/AccountManagementPage.tsx:35 | lowering twice is lowering once |
| Text.ContainsEmptyAndSelf | src/pages/CustomerManagementPage.tsx:34 | every string includes the empty string and itself |

## Left out

- The Express app, CORS, the SQLite schema, the database helpers and the CRUD routes (server/index.js:1-225 and 367-395) are I/O plumbing. The table read by `/api/trucks/load` is a parameter.
- Persisting the planned trucks and updating cargo rows after planning (server/index.js:323-358) is database I/O and is not modelled.
- Loading.OptimizeLoading: the source is a single function. The model splits its round into `TrialLoad` (the inner loop over cargo) and `ChooseTruck` (the loop over types). Together they run the same steps.
- Loading.LoadCargo: the ids arrive as a list or not at all. A request body whose `cargoIds` is a non-empty non-array (a string, say) passes the guard at server/index.js:232, throws at the `.map` of line 238 and is answered 500 by the catch at lines 361-364; that path is not modelled.
- Loading.SelectRequested: the query at server/index.js:237-239 has no `ORDER BY`, so the database may return the rows in any order. The model keeps table order. `LoadCargo`'s equation with `Plan` therefore fixes one tie-break among equal volumes. The partition, membership, length, order and validity facts of `PackerGuarantees` hold for every input order.
- CargoTypes.PriorityScore: the dates come in as parsed integer milliseconds. An unparseable `timeLimitDate` or `date` is not modelled; in the source it makes `getTime()` NaN. A NaN deadline falls through to the +200 branch, and a NaN arrival makes the whole score NaN.
- Loading.SortByVolume: the built-in sort is modelled as a stable insertion sort. Its stability relative to equal volumes is not stated as a lemma.
- Browser storage is not modelled as JSON. Each storage entry is an optional value: a field of the store classes, or a `Backup` parameter for the cargo store's restore. The backup effect that writes the lists to storage after every change is not modelled.
- Asynchronous ordering and concurrency are not modelled. Each server call is a success or a failure passed in, and the refresh after a successful write is one `Fetch` outcome.
- The generated ids (`Date.now()`) and creation times are parameters, so their freshness is not modelled.
- Floating-point arithmetic is not modelled. `toFixed` display rounding is left out, and numbers are exact reals.
- Text.Lower: only the Latin letters A–Z are lowered. JavaScript's full Unicode case mapping is not modelled.
- AuthContext.ValidateNewPassword: the length is counted in code points, whereas JavaScript counts UTF-16 code units.
- AuthContext.ChangePasswordTouchesOnlyPassword: this holds only when the session copy equals its stored account. Otherwise the source writes the whole session copy back, as `ChangePasswordWritesBackSession` shows.
- The `default:` branches of the role, tier and status switches (display names, colours, priority 0) cannot be reached with the enumerated types used here.
- Rendering, alerts, dialogs, `showAddForm` and timers are UI only and are not modelled. The confirmation dialogs are a boolean parameter.
- The warehouse, history, trucks and home pages and the other components only render and are not modelled.
