# Floodwise front end — a verified model

Floodwise is a browser front end for household flood preparedness. A
signed-in customer sees their property's flood risk. They work through a
property assessment, keep a flood plan (emergency contacts, family members,
documents and a flood-risk walkthrough) and install a flood kit one step at a
time. The application has no back end: every data call is a placeholder and
all data is mocked. The logic lives in the components' event handlers and
small helpers, and in the `zod` schemas of the record types. This project
states that logic in Dafny and proves what it promises.

The model follows the source file by file, one module per file:

| module | source |
|---|---|
| `MyFloodKit` | `pages/MyFloodKit.tsx`: the per-item, per-step completion map, the next item to install, the installed count |
| `FloodKitItemCard` | `components/flood-kit/FloodKitItem.tsx`: the card's status badge, step count, master checkbox and priority label |
| `FloodKitList` | `components/flood-kit/FloodKitList.tsx`: keyword categories and the expanded-category set |
| `FloodKitInstallationView` | `components/flood-kit/FloodKitInstallationView.tsx`: carousel navigation, progress and step display |
| `FloodKitProgressCard` | `components/flood-kit/FloodKitProgressCard.tsx`: protected percentage and the start button |
| `FloodKitIcons` | `lib/utils.ts`: the title-keyword icon classifier |
| `ContactTab`, `FamilyMembers`, `Documents` | the flood-plan tabs: id-keyed lists with guarded add, edit and delete, and the age calculation |
| `FloodInformations` | the four-step flood-risk walkthrough with its tick-to-complete gate |
| `YourFloodPlanDialog` | the three-step dialog and its open rule |
| `Stepper` | the previous/next clamp the two walkthroughs share |
| `StepIndicator` | `components/shared/StepIndicator.tsx`: step kinds, navigation dispatch, step number, dot style |
| `OtherStructures` | the index-keyed list of outbuildings |
| `PropertyConstruction` | the wall material, the wall-condition selector and the airbrick counters |
| `VerifyDetails` | both versions of the "verify your details" step |
| `RiskLevel`, `RiskFactorsBreakdown`, `PropertyAssessment` | the property overview cards |
| `FloodKitSchema`, `AdditionalStructureSchema`, `AddressSchema`, `PropertySchema`, `CustomerSchema`, `UploadCsvSchema` | the `zod` schemas under `src/types` |
| `Wrappers`, `Text`, `Lists`, `Zod`, `JsMath` | shared helpers: `Option`, ASCII lower-casing and `includes`, list filters, the `zod` field model, and `Math.round(100 * a / b)` |

How JavaScript and React become Dafny:

- A component whose handlers update `useState` values is a `class`. Each state
  variable is a field, and each handler is a method. A method's `modifies`
  clause names exactly the fields the handler sets, and its `ensures` gives the
  new state in terms of the old one.
- A list the handlers rebuild is a `seq` field. The editing it does is a
  function on sequences, such as `WithEdit` or `WithoutId`, and the lemmas are
  about that function.
- A loop in the source is a method with a loop, proved equal to a recursive
  function. There are three: the completion-map initialiser, the master-checkbox
  fan-out and `categorizeItems`.
- A `zod` field is a `Field<T>`: `Missing` (undefined), `Null` or `Given(v)`.
  Numbers are `real`, so `.int()` and `.nonnegative()` are real checks.
  `.default()` replaces only `Missing`. Objects that are not strict ignore
  unknown keys. Each schema is a predicate `Valid` and a function `Parse`.
  `Parse` returns `Some` exactly when `Valid` holds, and its result carries the
  defaults.
- JavaScript truthiness is written out. For example, an empty string and the
  id 0 are falsy, and `a ?? b` keeps `false`.
- `Math.round((a / b) * 100)` is modelled as half-up rounding of the exact quotient, `(200a + b) / (2b)`. The source rounds a double instead, which can land just below an exact half (see `JsMath.RoundedPercent` under "## Left out").
  Dividing by zero gives `NaN` or `Infinity`, which are modelled as values of
  the `Ratio` type.
- Values that come from the browser or the clock are parameters:
  - a fresh id from `Date.now()`/`Math.random()`;
  - today's date;
  - the upload time;
  - the current path;
  - a chosen file.

  So is code the model does not contain: the `isItemInstalled` predicate, the
  e-mail format check and the item-path builder.

## Model

| member | source | states |
|---|---|---|
| MyFloodKit.BuildCompletedSteps | floodwise-frontend/src/pages/MyFloodKit.tsx:23-36 | the nested loops build exactly the initial step map of every item (a later duplicate id or step number overwrites an earlier one) |
| MyFloodKit.InitialStepMapEntries | floodwise-frontend/src/pages/MyFloodKit.tsx:27-34 | an item's initial map has exactly its step numbers as keys and, with distinct step numbers, holds each step's own `isCompleted` |
| MyFloodKit.InitialCompletedStepsKeys | floodwise-frontend/src/pages/MyFloodKit.tsx:23-36 | the initial state has one map per item id and no other |
| MyFloodKit.InitialCompletedStepsEntry | floodwise-frontend/src/pages/MyFloodKit.tsx:23-36 | the map kept for an id is that of the last item carrying the id |
| MyFloodKit.InitialisationMatchesItems | floodwise-frontend/src/pages/MyFloodKit.tsx:23-36 | with unique ids and distinct step numbers, `completedSteps[item.id][s.step] == s.isCompleted` for every item and step |
| MyFloodKit.SetStep | floodwise-frontend/src/pages/MyFloodKit.tsx:41-53 | entry [id][step] becomes the new value; every other step of the item and every other item's map is unchanged |
| MyFloodKit.SetStepOnFreshItem | floodwise-frontend/src/pages/MyFloodKit.tsx:46 | updating an item that has no map yet creates a map holding only that step |
| MyFloodKit.SetStepIdempotent | floodwise-frontend/src/pages/MyFloodKit.tsx:41-53 | applying the same update twice equals applying it once |
| MyFloodKit.SetStepCommutes | floodwise-frontend/src/pages/MyFloodKit.tsx:41-53 | updates to different (item, step) entries can be applied in either order |
| MyFloodKit.NextPrefersHighPriority | floodwise-frontend/src/pages/MyFloodKit.tsx:61-67 | when some high-priority item is uninstalled, the next item is the first such item in list order |
| MyFloodKit.NextFallsBackToFirstUninstalled | floodwise-frontend/src/pages/MyFloodKit.tsx:69-76 | with no uninstalled high-priority item, the next item is the first uninstalled one in list order |
| MyFloodKit.NextIsNoneIffAllInstalled | floodwise-frontend/src/pages/MyFloodKit.tsx:60-77 | there is no next item exactly when every item is installed |
| MyFloodKit.NextIsUninstalled | floodwise-frontend/src/pages/MyFloodKit.tsx:60-77 | any item returned is in the list and not installed |
| MyFloodKit.InstalledItems | floodwise-frontend/src/pages/MyFloodKit.tsx:80-86 | the number of installed items never exceeds the number of items |
| MyFloodKit.InstalledItemsAllIffNoNext | floodwise-frontend/src/pages/MyFloodKit.tsx:80-86 | the installed count equals the item count exactly when no next item exists |
| MyFloodKit.FloodKitPage.constructor | floodwise-frontend/src/pages/MyFloodKit.tsx:23-36 | the page starts with the initial step maps and no item selected |
| MyFloodKit.FloodKitPage.HandleStepCompletion | floodwise-frontend/src/pages/MyFloodKit.tsx:41-53 | the state becomes the one-entry update of the old state; the selection is untouched |
| MyFloodKit.FloodKitPage.SelectItem | floodwise-frontend/src/pages/MyFloodKit.tsx:95 | opening the guide selects exactly the given item |
| MyFloodKit.FloodKitPage.CloseGuide | floodwise-frontend/src/pages/MyFloodKit.tsx:94 | closing the guide clears the selection |
| FloodKitItemCard.CompletedStepCount | floodwise-frontend/src/components/flood-kit/FloodKitItem.tsx:65-69 | the badge count never exceeds the number of map entries |
| FloodKitItemCard.AllCompleteIffCountIsSize | floodwise-frontend/src/components/flood-kit/FloodKitItem.tsx:34-69 | every entry is true exactly when the count of true entries equals the number of entries |
| FloodKitItemCard.StatusBadge | floodwise-frontend/src/components/flood-kit/FloodKitItem.tsx:34-75 | "Completed" exactly when every map value is true (so an empty map reads "Completed"), else "Not Installed" |
| FloodKitItemCard.StepChecked | floodwise-frontend/src/components/flood-kit/FloodKitItem.tsx:116 | a step box shows its map entry, and false when the step has none |
| FloodKitItemCard.ShowsInstallationDate | floodwise-frontend/src/components/flood-kit/FloodKitItem.tsx:86-92 | the date is shown exactly when the item has one and all steps are complete |
| FloodKitItemCard.PriorityLabelInjective | floodwise-frontend/src/components/flood-kit/FloodKitItem.tsx:95-110 | the three priority labels are distinct, so the label identifies the priority |
| FloodKitItemCard.MasterChanges | floodwise-frontend/src/components/flood-kit/FloodKitItem.tsx:44-54 | the master box issues one change per installation step, in step order, each with the box's new value |
| FloodKitItemCard.MasterCheckboxChanges | floodwise-frontend/src/components/flood-kit/FloodKitItem.tsx:44-54 | the loop issues exactly those changes |
| FloodKitItemCard.ApplyChangesEntries | floodwise-frontend/src/components/flood-kit/FloodKitItem.tsx:44-54 | applying the changes sets every called step to the value and leaves every other entry as it was |
| FloodKitItemCard.MasterCheckboxSetsEveryStep | floodwise-frontend/src/components/flood-kit/FloodKitItem.tsx:44-54 | after the master box, every step of the item shows the new value; ticked, with no foreign keys, the card reads "Completed" |
| FloodKitList.CategoryRules | floodwise-frontend/src/components/flood-kit/FloodKitList.tsx:29-60 | each category is chosen exactly when its keywords occur in the lower-cased title and no earlier rule's do: door/window/seal, air brick/airbrick/vent, toilet/bath/plumbing, sandbag/barrier, else "Other" |
| FloodKitList.LocationRules | floodwise-frontend/src/components/flood-kit/FloodKitList.tsx:73-79 | "Front Door" exactly for "door", else "Bathroom" for "toilet", else "Exterior Wall" for "air brick", else "Various"; the spelling "airbrick" is not tested here |
| FloodKitList.CostMonotone | floodwise-frontend/src/components/flood-kit/FloodKitList.tsx:81-82 | cost is 285/150/75 by priority and a higher priority never costs less |
| FloodKitList.Decorated | floodwise-frontend/src/components/flood-kit/FloodKitList.tsx:80-82 | each listed item carries its location, quantity 1 and its priority's cost |
| FloodKitList.CategorizeItems | floodwise-frontend/src/components/flood-kit/FloodKitList.tsx:25-87 | the loop builds exactly the grouping of the items' placements |
| FloodKitList.GroupCorrect | floodwise-frontend/src/components/flood-kit/FloodKitList.tsx:62-86 | grouping gives distinct names, and every placement lands in the category of its name |
| FloodKitList.CategorizeCorrect | floodwise-frontend/src/components/flood-kit/FloodKitList.tsx:25-87 | category names are distinct; every item's category appears; each category holds exactly its items in input order, is never empty and takes the icon of its first item |
| FloodKitList.CategoriesInFirstOccurrenceOrder | floodwise-frontend/src/components/flood-kit/FloodKitList.tsx:62-86 | categories come in the order their first items appear: for every earlier category, its first item comes before the first item of any later category |
| FloodKitList.CategorizeKeepsCount | floodwise-frontend/src/components/flood-kit/FloodKitList.tsx:28-84 | category sizes add up to the number of items |
| FloodKitList.InstalledInCategory | floodwise-frontend/src/components/flood-kit/FloodKitList.tsx:130-132 | the installed count never exceeds the category size |
| FloodKitList.CategoryCompletedIffAllCounted | floodwise-frontend/src/components/flood-kit/FloodKitList.tsx:127-132 | `allInstalled` holds exactly when `installedCount` equals the category size |
| FloodKitList.Toggled | floodwise-frontend/src/components/flood-kit/FloodKitList.tsx:110-120 | toggling flips membership of exactly one name |
| FloodKitList.ToggleTwice | floodwise-frontend/src/components/flood-kit/FloodKitList.tsx:110-120 | toggling the same name twice restores the set |
| FloodKitList.FloodKitListView.ToggleCategory | floodwise-frontend/src/components/flood-kit/FloodKitList.tsx:110-120 | the expanded set becomes the toggled set |
| FloodKitList.FloodKitListView.constructor | floodwise-frontend/src/components/flood-kit/FloodKitList.tsx:104-106 | every category starts collapsed |
| FloodKitInstallationView.CurrentIndex | floodwise-frontend/src/components/flood-kit/FloodKitInstallationView.tsx:39-42 | the index of the first item with the selected id, and -1 exactly when none has it |
| FloodKitInstallationView.IndexOfSelectedItem | floodwise-frontend/src/components/flood-kit/FloodKitInstallationView.tsx:39-42 | with unique ids, selecting item k gives index k |
| FloodKitInstallationView.PreviousId | floodwise-frontend/src/components/flood-kit/FloodKitInstallationView.tsx:43-65 | the previous item is proposed exactly when the index is above 0, and it is the neighbour |
| FloodKitInstallationView.NextId | floodwise-frontend/src/components/flood-kit/FloodKitInstallationView.tsx:44-72 | the next item is proposed exactly when the index is below the last, and it is the neighbour |
| FloodKitInstallationView.NextThenPrevious | floodwise-frontend/src/components/flood-kit/FloodKitInstallationView.tsx:60-72 | with unique ids, next then previous from a non-last item returns to the same item |
| FloodKitInstallationView.NavigationBounds | floodwise-frontend/src/components/flood-kit/FloodKitInstallationView.tsx:43-44 | the first item has no previous and the last has no next |
| FloodKitInstallationView.PositionLabel | floodwise-frontend/src/components/flood-kit/FloodKitInstallationView.tsx:119 | "Item i of n" counts from 1 and never exceeds the length |
| FloodKitInstallationView.ProgressBounds | floodwise-frontend/src/components/flood-kit/FloodKitInstallationView.tsx:76-79 | progress is 0..100 when the map has no more entries than steps; all done gives 100, none done 0; with no steps it is not a number |
| FloodKitInstallationView.InstalledBadgeAgreesWithCard | floodwise-frontend/src/components/flood-kit/FloodKitInstallationView.tsx:227 | the guide's "Installed" needs count = total > 0; it implies the card's "Completed", but an item without steps is "Completed" on the card and not "Installed" in the guide |
| FloodKitInstallationView.StepShownCompleted | floodwise-frontend/src/components/flood-kit/FloodKitInstallationView.tsx:303-304 | a step shows its map entry when present, else its own `isCompleted` |
| FloodKitInstallationView.StepShownAgreesWithCard | floodwise-frontend/src/components/flood-kit/FloodKitInstallationView.tsx:303-304 | guide and card agree whenever the map has the step; otherwise the guide falls back to the step's flag and the card to false |
| FloodKitInstallationView.InstallationGuide.GoToPreviousItem | floodwise-frontend/src/components/flood-kit/FloodKitInstallationView.tsx:60-65 | moves to the previous item and sets the direction backward only when there is one; otherwise nothing changes |
| FloodKitInstallationView.InstallationGuide.GoToNextItem | floodwise-frontend/src/components/flood-kit/FloodKitInstallationView.tsx:67-72 | moves to the next item and sets the direction forward only when there is one; otherwise nothing changes |
| FloodKitInstallationView.InstallationGuide.GoToIndicator | floodwise-frontend/src/components/flood-kit/FloodKitInstallationView.tsx:138-143 | selects item idx; the direction is forward exactly when idx is above the current index |
| FloodKitInstallationView.InitialStepMapSize | floodwise-frontend/src/pages/MyFloodKit.tsx:27-34 | with distinct step numbers, an item's initial map has one entry per step, so the guide's progress starts within 0..100 |
| FloodKitInstallationView.InstallationGuide.constructor | floodwise-frontend/src/components/flood-kit/FloodKitInstallationView.tsx:35-37 | the guide opens on the page's selection with no navigation direction yet |
| FloodKitProgressCard.ProtectedPercentageOnPage | floodwise-frontend/src/components/flood-kit/FloodKitProgressCard.tsx:19 | the percentage is 0..100; all installed gives 100; with fewer than 200 items 100 means all installed |
| FloodKitProgressCard.FullPercentageWithOneLeft | floodwise-frontend/src/components/flood-kit/FloodKitProgressCard.tsx:19 | 199 of 200 installed already rounds to 100% |
| FloodKitProgressCard.StartButtonLabel | floodwise-frontend/src/components/flood-kit/FloodKitProgressCard.tsx:31-47 | "Continue the Installation" exactly when something is installed, else "Start the Installation" |
| FloodKitProgressCard.StartInstallation | floodwise-frontend/src/components/flood-kit/FloodKitProgressCard.tsx:21-26 | the guide opens only for a truthy next id: none and id 0 both open nothing |
| FloodKitProgressCard.StartOpensNextUninstalled | floodwise-frontend/src/components/flood-kit/FloodKitProgressCard.tsx:22-24 | when it opens, it opens the id the next-item rule returns |
| FloodKitProgressCard.HandleStartInstallation | floodwise-frontend/src/components/flood-kit/FloodKitProgressCard.tsx:21-26 | the page's selection becomes the opened id, or stays as it was |
| FloodKitProgressCard.WholeIsHundred | floodwise-frontend/src/components/flood-kit/FloodKitProgressCard.tsx:19 | all of a non-empty kit installed reads 100% |
| FloodKitProgressCard.ShortOfWholeBelowHundred | floodwise-frontend/src/components/flood-kit/FloodKitProgressCard.tsx:19 | with fewer than 200 items, anything short of all installed reads below 100% |
| FloodKitIcons.CaseInsensitive | floodwise-frontend/src/lib/utils.ts:23 | a title and its lower-cased form get the same icon |
| FloodKitIcons.RulesInOrder | floodwise-frontend/src/lib/utils.ts:24-42 | each icon is chosen exactly when its keywords occur and no earlier rule's do; no match gives Package |
| FloodKitIcons.DoorBeatsSand | floodwise-frontend/src/lib/utils.ts:24-41 | a title with both "door" and "sand" gets DoorOpen |
| FloodKitIcons.DoorSandbagExample | floodwise-frontend/src/lib/utils.ts:24-41 | "Door Sandbag Kit" gets DoorOpen |
| ContactTab.NewContact | floodwise-frontend/src/components/flood-plan/flood-plan-tabs/ContactTab.tsx:92-97 | the new contact takes the fresh id and the form's category, name and number |
| ContactTab.WithEdit | floodwise-frontend/src/components/flood-plan/flood-plan-tabs/ContactTab.tsx:114-124 | only name and number of contacts with the id change; ids, categories and other contacts stay |
| ContactTab.WithoutId | floodwise-frontend/src/components/flood-plan/flood-plan-tabs/ContactTab.tsx:140-148 | no contact left has the id, each one left was in the list, and every contact without the id stays |
| ContactTab.DeleteKeepsOrder | floodwise-frontend/src/components/flood-plan/flood-plan-tabs/ContactTab.tsx:140-148 | deleting keeps the order: around any one contact, the parts before and after are filtered on their own, and that contact goes exactly when it has the id |
| ContactTab.SectionsPartition | floodwise-frontend/src/components/flood-plan/flood-plan-tabs/ContactTab.tsx:150-152 | the personal, public and utility sections partition the list |
| ContactTab.EditKeepsSectionSizes | floodwise-frontend/src/components/flood-plan/flood-plan-tabs/ContactTab.tsx:114-124 | an edit never moves a contact between sections |
| ContactTab.AddThenDelete | floodwise-frontend/src/components/flood-plan/flood-plan-tabs/ContactTab.tsx:140-148 | deleting a freshly added contact with a fresh id gives the list back |
| ContactTab.DeleteCount | floodwise-frontend/src/components/flood-plan/flood-plan-tabs/ContactTab.tsx:140-148 | deleting shortens the list by the number of contacts with that id |
| ContactTab.ContactTabView.HandleAddContact | floodwise-frontend/src/components/flood-plan/flood-plan-tabs/ContactTab.tsx:87-102 | with category, name and number all non-empty, appends the new contact last, resets and closes the form; otherwise nothing changes |
| ContactTab.ContactTabView.HandleCancel | floodwise-frontend/src/components/flood-plan/flood-plan-tabs/ContactTab.tsx:104-107 | resets and closes the form without touching the list |
| ContactTab.ContactTabView.HandleStartEdit | floodwise-frontend/src/components/flood-plan/flood-plan-tabs/ContactTab.tsx:109-112 | loads the contact's name and number into the edit data |
| ContactTab.ContactTabView.HandleSaveEdit | floodwise-frontend/src/components/flood-plan/flood-plan-tabs/ContactTab.tsx:114-128 | with an edit in progress and non-empty name and number, applies the edit and ends it; otherwise nothing changes |
| ContactTab.ContactTabView.HandleCancelEdit | floodwise-frontend/src/components/flood-plan/flood-plan-tabs/ContactTab.tsx:130-133 | ends the edit without touching the list |
| ContactTab.ContactTabView.HandleOpenDeleteDialog | floodwise-frontend/src/components/flood-plan/flood-plan-tabs/ContactTab.tsx:135-138 | records the pending id and opens the dialog |
| ContactTab.ContactTabView.HandleConfirmDelete | floodwise-frontend/src/components/flood-plan/flood-plan-tabs/ContactTab.tsx:140-148 | removes the pending contacts and closes the dialog; with no pending id nothing changes |
| ContactTab.ContactTabView.constructor | floodwise-frontend/src/components/flood-plan/flood-plan-tabs/ContactTab.tsx:69-85 | starts with the given contacts, no form open, no edit, no pending delete and all three sections open |
| ContactTab.ContactTabView.StartAdding | floodwise-frontend/src/components/flood-plan/flood-plan-tabs/ContactTab.tsx:176 | "Add contact" opens the form |
| ContactTab.ContactTabView.UpdateForm | floodwise-frontend/src/components/flood-plan/flood-plan-tabs/ContactTab.tsx:190-219 | typing replaces the add form's data |
| ContactTab.ContactTabView.UpdateEdit | floodwise-frontend/src/components/flood-plan/flood-plan-tabs/ContactTab.tsx:290-300 | typing replaces the edit data |
| ContactTab.ContactTabView.DismissDeleteDialog | floodwise-frontend/src/components/flood-plan/flood-plan-tabs/ContactTab.tsx:641-654 | "No" closes the dialog and forgets the pending contact |
| ContactTab.ContactTabView.SetSectionOpen | floodwise-frontend/src/components/flood-plan/flood-plan-tabs/ContactTab.tsx:249-250 | opening or closing one section leaves the other two as they were |
| FamilyMembers.AgeIsBirthdaysReached | floodwise-frontend/src/components/flood-plan/flood-plan-tabs/FamilyMembers.tsx:69-81 | the age is the number of birthdays already reached: the birthday in year dob + age is on or before today and the next one is after it |
| FamilyMembers.AgeNonNegative | floodwise-frontend/src/components/flood-plan/flood-plan-tabs/FamilyMembers.tsx:69-81 | there is an age exactly when a date was picked, and a birth date on or before today never gives a negative age |
| FamilyMembers.NewMember | floodwise-frontend/src/components/flood-plan/flood-plan-tabs/FamilyMembers.tsx:83-103 | the added member takes the fresh id and the form's fields |
| FamilyMembers.AddAsWrittenDuplicatesId | floodwise-frontend/src/components/flood-plan/flood-plan-tabs/FamilyMembers.tsx:88-91 | as written, adding while a member is loaded into the form copies that member's id; one delete then removes both |
| FamilyMembers.AddKeepsIdsUnique | floodwise-frontend/src/components/flood-plan/flood-plan-tabs/FamilyMembers.tsx:83-103 | with a fresh id, adding keeps ids unique |
| FamilyMembers.FindMember | floodwise-frontend/src/components/flood-plan/flood-plan-tabs/FamilyMembers.tsx:125-127 | a member exactly when one has the id; it has the id, and no earlier member does |
| FamilyMembers.WithMemberEdit | floodwise-frontend/src/components/flood-plan/flood-plan-tabs/FamilyMembers.tsx:125-137 | overwrites the form's fields only on members with the id, keeping their id; others unchanged |
| FamilyMembers.EditKeepsIds | floodwise-frontend/src/components/flood-plan/flood-plan-tabs/FamilyMembers.tsx:125-137 | an edit keeps every id and the list length |
| FamilyMembers.WithoutMember | floodwise-frontend/src/components/flood-plan/flood-plan-tabs/FamilyMembers.tsx:171-179 | no member left has the id, each one left was in the list, and every member without the id stays |
| FamilyMembers.DeleteKeepsOrder | floodwise-frontend/src/components/flood-plan/flood-plan-tabs/FamilyMembers.tsx:171-179 | deleting keeps the order: around any one member, the parts before and after are filtered on their own, and that member goes exactly when it has the id |
| FamilyMembers.AddThenDelete | floodwise-frontend/src/components/flood-plan/flood-plan-tabs/FamilyMembers.tsx:171-179 | deleting a freshly added member gives the list back |
| FamilyMembers.FamilyMembersView.SetMedicalConditionNo | floodwise-frontend/src/components/flood-plan/flood-plan-tabs/FamilyMembers.tsx:304-309 | choosing "No" also clears the medical note |
| FamilyMembers.FamilyMembersView.HandleAddFamilyMember | floodwise-frontend/src/components/flood-plan/flood-plan-tabs/FamilyMembers.tsx:83-103 | with non-empty name and last name, appends the corrected `NewMember` (always the fresh id; see "## Findings") and resets the form; otherwise nothing changes |
| FamilyMembers.FamilyMembersView.HandleCancelFamilyForm | floodwise-frontend/src/components/flood-plan/flood-plan-tabs/FamilyMembers.tsx:105-115 | resets the form and closes it |
| FamilyMembers.FamilyMembersView.HandleEditFamilyMember | floodwise-frontend/src/components/flood-plan/flood-plan-tabs/FamilyMembers.tsx:117-123 | loads the member into the form and marks it as edited |
| FamilyMembers.FamilyMembersView.HandleSaveFamilyMemberEdit | floodwise-frontend/src/components/flood-plan/flood-plan-tabs/FamilyMembers.tsx:125-148 | with the member present and non-empty names, applies the edit and ends it; otherwise nothing changes |
| FamilyMembers.FamilyMembersView.HandleCancelFamilyMemberEdit | floodwise-frontend/src/components/flood-plan/flood-plan-tabs/FamilyMembers.tsx:150-160 | ends the edit and resets the form |
| FamilyMembers.FamilyMembersView.HandleConfirmDelete | floodwise-frontend/src/components/flood-plan/flood-plan-tabs/FamilyMembers.tsx:171-179 | removes the pending member's id and closes the dialog; with none pending nothing changes |
| FamilyMembers.FamilyMembersView.constructor | floodwise-frontend/src/components/flood-plan/flood-plan-tabs/FamilyMembers.tsx:46-67 | starts with no members, an empty closed form, no edit, no pending delete and the calendar closed |
| FamilyMembers.FamilyMembersView.StartAdding | floodwise-frontend/src/components/flood-plan/flood-plan-tabs/FamilyMembers.tsx:184-187 | "Add family member" opens the form |
| FamilyMembers.FamilyMembersView.UpdateFields | floodwise-frontend/src/components/flood-plan/flood-plan-tabs/FamilyMembers.tsx:203-215 | typing changes only the typed text fields of the form |
| FamilyMembers.FamilyMembersView.SelectDateOfBirth | floodwise-frontend/src/components/flood-plan/flood-plan-tabs/FamilyMembers.tsx:245-252 | picking a date stores it and closes the calendar |
| FamilyMembers.FamilyMembersView.SetMedicalConditionYes | floodwise-frontend/src/components/flood-plan/flood-plan-tabs/FamilyMembers.tsx:284-288 | "Yes" sets the medical flag and keeps the note |
| FamilyMembers.FamilyMembersView.HandleOpenDeleteDialog | floodwise-frontend/src/components/flood-plan/flood-plan-tabs/FamilyMembers.tsx:162-169 | records the pending member's id and names and opens the dialog |
| FamilyMembers.FamilyMembersView.DismissDeleteDialog | floodwise-frontend/src/components/flood-plan/flood-plan-tabs/FamilyMembers.tsx:622-640 | "No" closes the dialog and forgets the pending member |
| Documents.NewDocument | floodwise-frontend/src/components/flood-plan/flood-plan-tabs/Documents.tsx:69-94 | the new document takes the fresh id, the time, title and description, and its file name and size from the chosen file |
| Documents.UpdatedDoc | floodwise-frontend/src/components/flood-plan/flood-plan-tabs/Documents.tsx:118-152 | title and description always change; file, name and size only with a replacement file; id and upload time never |
| Documents.UpdatedDocConsistent | floodwise-frontend/src/components/flood-plan/flood-plan-tabs/Documents.tsx:118-152 | a saved edit keeps name and size equal to the held file |
| Documents.WithEdit | floodwise-frontend/src/components/flood-plan/flood-plan-tabs/Documents.tsx:123-139 | only the edited document changes |
| Documents.WithoutId | floodwise-frontend/src/components/flood-plan/flood-plan-tabs/Documents.tsx:172-180 | no document left has the id, each one left was in the list, and every document without the id stays |
| Documents.DeleteKeepsOrder | floodwise-frontend/src/components/flood-plan/flood-plan-tabs/Documents.tsx:172-180 | deleting keeps the order: around any one document, the parts before and after are filtered on their own, and that document goes exactly when it has the id |
| Documents.OperationsKeepConsistency | floodwise-frontend/src/components/flood-plan/flood-plan-tabs/Documents.tsx:69-180 | add, edit and delete keep every document's name and size equal to its file |
| Documents.AddThenDelete | floodwise-frontend/src/components/flood-plan/flood-plan-tabs/Documents.tsx:172-180 | deleting a freshly added document gives the list back |
| Documents.DocumentsView.HandleFileChange | floodwise-frontend/src/components/flood-plan/flood-plan-tabs/Documents.tsx:55-60 | the chosen file goes into the form |
| Documents.DocumentsView.HandleAddDocument | floodwise-frontend/src/components/flood-plan/flood-plan-tabs/Documents.tsx:69-94 | with a title and a file, appends the new document and resets the form; otherwise nothing changes |
| Documents.DocumentsView.HandleStartEdit | floodwise-frontend/src/components/flood-plan/flood-plan-tabs/Documents.tsx:108-116 | loads title, description and file name, with no replacement file |
| Documents.DocumentsView.HandleEditFileChange | floodwise-frontend/src/components/flood-plan/flood-plan-tabs/Documents.tsx:62-67 | a replacement file updates the edit's file, name and size |
| Documents.DocumentsView.HandleSaveEdit | floodwise-frontend/src/components/flood-plan/flood-plan-tabs/Documents.tsx:118-152 | with an edit in progress and a title, applies the edit and ends it; otherwise nothing changes |
| Documents.DocumentsView.HandleConfirmDelete | floodwise-frontend/src/components/flood-plan/flood-plan-tabs/Documents.tsx:172-180 | removes the pending document and closes the dialog; with none pending nothing changes |
| Documents.EditWithFile | floodwise-frontend/src/components/flood-plan/flood-plan-tabs/Documents.tsx:62-67 | a replacement file sets the edit's file and name and keeps title and description; no file leaves the edit unchanged; name and file stay consistent |
| Documents.DocumentsView.constructor | floodwise-frontend/src/components/flood-plan/flood-plan-tabs/Documents.tsx:25-45 | starts with no documents, no form, no edit and no pending delete |
| Documents.DocumentsView.StartAdding | floodwise-frontend/src/components/flood-plan/flood-plan-tabs/Documents.tsx:204 | "Add document" opens the form |
| Documents.DocumentsView.UpdateFormText | floodwise-frontend/src/components/flood-plan/flood-plan-tabs/Documents.tsx:223-235 | typing changes only the form's title and description |
| Documents.DocumentsView.HandleCancel | floodwise-frontend/src/components/flood-plan/flood-plan-tabs/Documents.tsx:96-106 | resets and closes the form |
| Documents.DocumentsView.UpdateEditText | floodwise-frontend/src/components/flood-plan/flood-plan-tabs/Documents.tsx:300-314 | typing changes only the edit's title and description |
| Documents.DocumentsView.HandleCancelEdit | floodwise-frontend/src/components/flood-plan/flood-plan-tabs/Documents.tsx:154-165 | ends the edit and clears its data |
| Documents.DocumentsView.HandleOpenDeleteDialog | floodwise-frontend/src/components/flood-plan/flood-plan-tabs/Documents.tsx:167-170 | records the pending document and opens the dialog |
| Documents.DocumentsView.DismissDeleteDialog | floodwise-frontend/src/components/flood-plan/flood-plan-tabs/Documents.tsx:426-438 | "No" closes the dialog and forgets the pending document |
| FloodInformations.FloodInformationsView.constructor | floodwise-frontend/src/components/flood-plan/FloodInformations.tsx:30-36 | starts on step 1 with nothing answered, ticked or completed |
| FloodInformations.FloodInformationsView.GoToPrevious | floodwise-frontend/src/components/flood-plan/FloodInformations.tsx:38-42 | decrements only above step 1; the step stays in 1..4 |
| FloodInformations.FloodInformationsView.GoToNext | floodwise-frontend/src/components/flood-plan/FloodInformations.tsx:44-48 | increments only below step 4; the step stays in 1..4 |
| FloodInformations.FloodInformationsView.HandleCheckAgain | floodwise-frontend/src/components/flood-plan/FloodInformations.tsx:50-52 | clears only the completed flag, leaving the completion view |
| FloodInformations.FloodInformationsView.SetWarningStatus | floodwise-frontend/src/components/flood-plan/FloodInformations.tsx:314-331 | sets the warning answer and nothing else |
| FloodInformations.FloodInformationsView.SetUnderstands | floodwise-frontend/src/components/flood-plan/FloodInformations.tsx:610-615 | sets the tick; ticking clears the earlier attempt |
| FloodInformations.FloodInformationsView.ToggleUnderstands | floodwise-frontend/src/components/flood-plan/FloodInformations.tsx:620-626 | flips the tick; a new tick clears the earlier attempt |
| FloodInformations.FloodInformationsView.ClickComplete | floodwise-frontend/src/components/flood-plan/FloodInformations.tsx:655-684 | completes the section (and shows the completion view) only when ticked; unticked it records the attempt, which shows the reminder |
| YourFloodPlanDialog.FloodPlanDialog.IsOpen | floodwise-frontend/src/components/flood-plan/YourFloodPlanDialog.tsx:38 | the controlled prop when given, else the internal state |
| YourFloodPlanDialog.FloodPlanDialog.RunOpenEffect | floodwise-frontend/src/components/flood-plan/YourFloodPlanDialog.tsx:46-57 | uncontrolled: on the page and not opted out, opens at step 1; off the page, closes; controlled: changes nothing |
| YourFloodPlanDialog.FloodPlanDialog.constructor | floodwise-frontend/src/components/flood-plan/YourFloodPlanDialog.tsx:33-57 | mounting on a route runs the effect once; the page test is equality with "/flood-plan/your-flood-plan" |
| YourFloodPlanDialog.FloodPlanDialog.Navigate | floodwise-frontend/src/components/flood-plan/YourFloodPlanDialog.tsx:33-57 | the effect re-runs only when the page flag changes |
| YourFloodPlanDialog.FloodPlanDialog.RequestOpenChange | floodwise-frontend/src/components/flood-plan/YourFloodPlanDialog.tsx:39-42 | an open change goes to the parent's callback when supplied, else to the internal state |
| YourFloodPlanDialog.FloodPlanDialog.GoToPrevious | floodwise-frontend/src/components/flood-plan/YourFloodPlanDialog.tsx:59-63 | decrements only above step 1; the step stays in 1..3 |
| YourFloodPlanDialog.FloodPlanDialog.GoToNext | floodwise-frontend/src/components/flood-plan/YourFloodPlanDialog.tsx:65-69 | increments only below step 3; the step stays in 1..3 |
| YourFloodPlanDialog.FloodPlanDialog.SetDontShowAgain | floodwise-frontend/src/components/flood-plan/YourFloodPlanDialog.tsx:179-184 | the opt-out takes the box's value |
| Stepper.MovesStayInRange | floodwise-frontend/src/components/flood-plan/FloodInformations.tsx:38-48 | previous and next keep a step within 1..last and undo each other away from the ends |
| Stepper.NextTimesReaches | floodwise-frontend/src/components/flood-plan/YourFloodPlanDialog.tsx:65-69 | k presses of next from a step reach min(step + k, last) |
| StepIndicator.GetStepType | floodwise-frontend/src/components/shared/StepIndicator.tsx:19-30 | "url" for a non-empty path, else "callback" for a callback, else "item" for an item id, else "url" |
| StepIndicator.UrlStepNavigatesToPath | floodwise-frontend/src/components/shared/StepIndicator.tsx:40-44 | a url step navigates to exactly its path; a step with nothing does nothing |
| StepIndicator.CallbackStepInvokes | floodwise-frontend/src/components/shared/StepIndicator.tsx:45-49 | a callback step invokes its callback |
| StepIndicator.ItemStepNavigation | floodwise-frontend/src/components/shared/StepIndicator.tsx:50-57 | an item step navigates exactly when its id is truthy (0 never), items and the path builder are given and the item is found, and goes to the builder's path |
| StepIndicator.CurrentStepNumber | floodwise-frontend/src/components/shared/StepIndicator.tsx:83-84 | the 1-based position of the first step with the current id, 1 when none |
| StepIndicator.CurrentStepNumberIsPosition | floodwise-frontend/src/components/shared/StepIndicator.tsx:83-84 | the number names the first matching step and stays within 1..steps |
| StepIndicator.Dot | floodwise-frontend/src/components/shared/StepIndicator.tsx:101-117 | active first, then completed (absent means not), else pending |
| OtherStructures.Merge | floodwise-frontend/src/components/property-assessment/OtherStructures.tsx:118-120 | only the given fields are replaced |
| OtherStructures.MergeProperties | floodwise-frontend/src/components/property-assessment/OtherStructures.tsx:118-120 | an empty update changes nothing and repeating an update changes nothing more |
| OtherStructures.EmptyFormIsNotSchemaValid | floodwise-frontend/src/components/property-assessment/OtherStructures.tsx:56-97 | the reset form has an empty name, which the structure schema refuses, and saving stores it anyway |
| OtherStructures.OtherStructuresView.HandleStartAdding | floodwise-frontend/src/components/property-assessment/OtherStructures.tsx:64-74 | opens the add form, clears the edit index and resets the form |
| OtherStructures.OtherStructuresView.HandleStartEditing | floodwise-frontend/src/components/property-assessment/OtherStructures.tsx:76-80 | loads element k into the form and turns adding off |
| OtherStructures.OtherStructuresView.HandleCancelForm | floodwise-frontend/src/components/property-assessment/OtherStructures.tsx:82-92 | closes the form and resets it |
| OtherStructures.OtherStructuresView.HandleSaveStructure | floodwise-frontend/src/components/property-assessment/OtherStructures.tsx:94-116 | editing k: replaces only element k; adding: appends the form and closes it; the form is reset either way |
| OtherStructures.OtherStructuresView.HandleUpdateFormField | floodwise-frontend/src/components/property-assessment/OtherStructures.tsx:118-120 | the form becomes the merge of the update |
| OtherStructures.OtherStructuresView.HandleOpenDeleteDialog | floodwise-frontend/src/components/property-assessment/OtherStructures.tsx:122-125 | records the pending index and opens the dialog |
| OtherStructures.OtherStructuresView.HandleConfirmDelete | floodwise-frontend/src/components/property-assessment/OtherStructures.tsx:127-137 | removes exactly the pending index and closes the dialog; with none pending nothing changes |
| OtherStructures.DeleteKeepsOthersInOrder | floodwise-frontend/src/components/property-assessment/OtherStructures.tsx:130-133 | deleting index k shortens the list by one and keeps the rest in order |
| OtherStructures.AddThenDeleteLast | floodwise-frontend/src/components/property-assessment/OtherStructures.tsx:104-133 | appending then deleting the last index gives the list back |
| OtherStructures.OtherStructuresView.constructor | floodwise-frontend/src/components/property-assessment/OtherStructures.tsx:38-62 | starts with no structures, no form open, no pending delete and the empty form |
| OtherStructures.OtherStructuresView.DismissDeleteDialog | floodwise-frontend/src/components/property-assessment/OtherStructures.tsx:348-360 | "Cancel" closes the dialog |
| PropertyConstruction.ConditionsOrdered | floodwise-frontend/src/components/property-assessment/PropertyConstruction.tsx:41-66 | the conditions are Poor, Fair, Good, Excellent in that order |
| PropertyConstruction.ClampAtZero | floodwise-frontend/src/components/property-assessment/PropertyConstruction.tsx:79-87 | a positive value is kept, anything else becomes 0 |
| PropertyConstruction.ParseIntOrZero | floodwise-frontend/src/components/property-assessment/PropertyConstruction.tsx:266 | text that does not parse as a number is 0 |
| PropertyConstruction.ParseDecimalString | floodwise-frontend/src/components/property-assessment/PropertyConstruction.tsx:263-266 | typing a count's digits stores exactly that count |
| PropertyConstruction.NonNumericIsZero | floodwise-frontend/src/components/property-assessment/PropertyConstruction.tsx:266 | an empty or non-numeric box stores 0 |
| PropertyConstruction.PropertyConstructionView.constructor | floodwise-frontend/src/components/property-assessment/PropertyConstruction.tsx:69-77 | starts on "Fair" with every counter 0 |
| PropertyConstruction.PropertyConstructionView.SelectMaterial | floodwise-frontend/src/components/property-assessment/PropertyConstruction.tsx:120-129 | a click selects exactly the clicked material, one of the six in `MATERIALS` |
| PropertyConstruction.PropertyConstructionView.PreviousCondition | floodwise-frontend/src/components/property-assessment/PropertyConstruction.tsx:188-189 | sets max(0, i - 1): never below Poor, never better |
| PropertyConstruction.PropertyConstructionView.NextCondition | floodwise-frontend/src/components/property-assessment/PropertyConstruction.tsx:199-200 | sets min(3, i + 1): never above Excellent, never worse |
| PropertyConstruction.PropertyConstructionView.UpdateAirbrick | floodwise-frontend/src/components/property-assessment/PropertyConstruction.tsx:79-87 | sets counter t to the value if positive, else 0; other counters unchanged; counters stay non-negative |
| PropertyConstruction.PropertyConstructionView.EnterAirbrick | floodwise-frontend/src/components/property-assessment/PropertyConstruction.tsx:263-266 | the box's text, read as a number or 0, then clamped |
| PropertyConstruction.AirbrickCounts.With | floodwise-frontend/src/components/property-assessment/PropertyConstruction.tsx:83-86 | sets one counter and keeps the others |
| PropertyConstruction.LeadingDigits | floodwise-frontend/src/components/property-assessment/PropertyConstruction.tsx:266 | the digits `parseInt` reads: a prefix of the text, all digits, followed by a non-digit or the end |
| PropertyConstruction.ParseInt | floodwise-frontend/src/components/property-assessment/PropertyConstruction.tsx:266 | a number is read exactly when at least one digit follows an optional sign |
| PropertyConstruction.PropertyConstructionView.SetHasAirbricks | floodwise-frontend/src/components/property-assessment/PropertyConstruction.tsx:234-246 | "Yes" and "No" record the airbrick answer |
| VerifyDetails.PersonalDefaults | floodwise-frontend/src/components/property-assessment/VerifyDetails.tsx:45-51 | the form starts with the user's details and a missing policy number as "" |
| VerifyDetails.AddressTextParts | floodwise-frontend/src/components/property-assessment/VerifyDetails.tsx:241-246 | the address is addressLine, ", additional" only when non-empty, then ", city, postcode" |
| VerifyDetails.PropertyDefaults | floodwise-frontend/src/components/property-assessment/verify-details.tsx:58-66 | the property form starts with the same address text and the first attribute's answer, or null |
| VerifyDetails.DefaultAddressLength | floodwise-frontend/src/components/property-assessment/verify-details.tsx:35-64 | a valid address yields at least 7 characters; the default passes the property form only up to 70 |
| VerifyDetails.OrDash | floodwise-frontend/src/components/property-assessment/VerifyDetails.tsx:216 | an empty or missing value shows "—" |
| VerifyDetails.PropertyTypeTextShape | floodwise-frontend/src/components/property-assessment/VerifyDetails.tsx:252-255 | a missing or empty type shows "—"; otherwise the first character is upper-cased and the rest kept |
| VerifyDetails.CapitalisationExamples | floodwise-frontend/src/components/property-assessment/VerifyDetails.tsx:252-255 | "detached" shows as "Detached"; "Flat" is unchanged |
| VerifyDetails.PersonalInfoCard.ToggleEditing | floodwise-frontend/src/components/property-assessment/VerifyDetails.tsx:85 | the pencil flips editing and keeps any values typed |
| VerifyDetails.PersonalInfoCard.StartEditing | floodwise-frontend/src/components/property-assessment/VerifyDetails.tsx:284-286 | "Something's not right" opens the form |
| VerifyDetails.PersonalInfoCard.Cancel | floodwise-frontend/src/components/property-assessment/VerifyDetails.tsx:170-176 | restores the defaults and closes the form |
| VerifyDetails.PersonalInfoCard.Save | floodwise-frontend/src/components/property-assessment/VerifyDetails.tsx:179-184 | closes the form exactly when the values pass the personal schema |
| VerifyDetails.PropertyInfoCard.Cancel | floodwise-frontend/src/components/property-assessment/verify-details.tsx:290-293 | restores the defaults and closes the form |
| VerifyDetails.PropertyInfoCard.Save | floodwise-frontend/src/components/property-assessment/verify-details.tsx:299-302 | closes the form exactly when the address is 5 to 70 characters |
| VerifyDetails.PropertyInfoCard.ToggleEditing | floodwise-frontend/src/components/property-assessment/verify-details.tsx:225 | the pencil flips editing |
| VerifyDetails.PersonalInfoCard.constructor | floodwise-frontend/src/components/property-assessment/VerifyDetails.tsx:41-51 | the form starts closed, holding the defaults taken from the user |
| VerifyDetails.PersonalInfoCard.Edit | floodwise-frontend/src/components/property-assessment/VerifyDetails.tsx:98-168 | typing replaces the form values |
| VerifyDetails.PropertyInfoCard.constructor | floodwise-frontend/src/components/property-assessment/verify-details.tsx:44-66 | the form starts closed, holding the defaults taken from the property |
| VerifyDetails.PropertyInfoCard.Edit | floodwise-frontend/src/components/property-assessment/verify-details.tsx:237-267 | typing replaces the form values |
| VerifyDetails.PersonalDefaultsSavable | floodwise-frontend/src/components/property-assessment/VerifyDetails.tsx:30-51 | the untouched personal form is accepted exactly when the user's names and phone are 1..100 characters, the e-mail is well formed and at most 100, and any policy number is at most 100 |
| VerifyDetails.PropertyTypeNeverDecides | floodwise-frontend/src/components/property-assessment/verify-details.tsx:35-38 | the property type may be given, null or absent without changing whether the property form is accepted |
| RiskLevel.ProgressValue | floodwise-frontend/src/components/property/RiskLevel.tsx:56-59 | the score clamped to 0..100 |
| RiskLevel.BandBounds | floodwise-frontend/src/components/property/RiskLevel.tsx:61-69 | blue up to 20, green up to 40, yellow up to 60, orange up to 80, red above |
| RiskLevel.BandMonotone | floodwise-frontend/src/components/property/RiskLevel.tsx:61-69 | a higher score never maps to a less severe band |
| RiskLevel.MockScoreIsYellow | floodwise-frontend/src/components/property/RiskLevel.tsx:27-69 | the mock score 42 is drawn at 42% in yellow |
| RiskLevel.Alerts.With | floodwise-frontend/src/components/property/RiskLevel.tsx:75 | sets one channel and keeps the others |
| RiskLevel.AlertUpdates | floodwise-frontend/src/components/property/RiskLevel.tsx:71-75 | setting a channel twice keeps the last value; different channels commute |
| RiskLevel.RiskLevelView.constructor | floodwise-frontend/src/components/property/RiskLevel.tsx:49-54 | collapsed, with SMS, e-mail and push all on |
| RiskLevel.RiskLevelView.HandleAlertToggle | floodwise-frontend/src/components/property/RiskLevel.tsx:71-75 | sets exactly channel t to the new value |
| RiskLevel.RiskLevelView.SetExpanded | floodwise-frontend/src/components/property/RiskLevel.tsx:120 | the collapsible sets the expanded flag |
| RiskFactorsBreakdown.LevelTextInjective | floodwise-frontend/src/components/property/RiskFactorsBreakdown.tsx:23-34 | the four levels read "High Risk", "Medium Risk", "Low Risk", "Very Low Risk", one-to-one |
| RiskFactorsBreakdown.IconRulesInOrder | floodwise-frontend/src/components/property/RiskFactorsBreakdown.tsx:36-52 | river/sea gives waves, then surface drops, groundwater arrow, reservoir dot; no match gives drops |
| RiskFactorsBreakdown.IconCaseInsensitive | floodwise-frontend/src/components/property/RiskFactorsBreakdown.tsx:37-38 | matching ignores case |
| RiskFactorsBreakdown.RiversAndSeaExample | floodwise-frontend/src/components/property/RiskFactorsBreakdown.tsx:36-41 | "Rivers & Sea" gets waves |
| RiskFactorsBreakdown.BadgeColourInjective | floodwise-frontend/src/components/property/RiskFactorsBreakdown.tsx:111-119 | red, orange, green and gray each belong to one level; gray is very low |
| PropertyAssessment.Progress | floodwise-frontend/src/components/property/PropertyAssessment.tsx:37-40 | progress is 0..100 |
| PropertyAssessment.ProgressIsTenPerStep | floodwise-frontend/src/components/property/PropertyAssessment.tsx:9-40 | progress is 10 per completed step, capped at 100 |
| PropertyAssessment.LabelAgreesWithProgress | floodwise-frontend/src/components/property/PropertyAssessment.tsx:42-47 | "Start" at 0, "Continue" below 10, "Edit" at 10 or more |
| PropertyAssessment.MockPropertyShowsThirtyPercent | floodwise-frontend/src/components/property/PropertyAssessment.tsx:11-47 | the mock property passes the schema and its 3 attributes show 30% and "Continue Assessment" |
| FloodKitSchema.Parse | floodwise-frontend/src/types/floodKit.ts:8-27 | an item is produced exactly when the object passes the schema |
| FloodKitSchema.ParseKeepsFields | floodwise-frontend/src/types/floodKit.ts:9-25 | the item holds the given values, false for a missing `installed`, "medium" for a missing priority, each step's number, text and flag |
| FloodKitSchema.StrictRejectsUnknownKeys | floodwise-frontend/src/types/floodKit.ts:27 | an unknown property is refused |
| FloodKitSchema.IdMustBeNonNegativeInteger | floodwise-frontend/src/types/floodKit.ts:9 | a negative or fractional id is refused |
| FloodKitSchema.EmptyImageUrlRejected | floodwise-frontend/src/types/floodKit.ts:13 | an empty image URL is refused, though it may be left out |
| FloodKitSchema.UnknownPriorityRejected | floodwise-frontend/src/types/floodKit.ts:18 | a priority outside low/medium/high is refused |
| AdditionalStructureSchema.Parse | floodwise-frontend/src/types/additionalStructure.ts:13-19 | a structure is produced exactly when the object passes the schema |
| AdditionalStructureSchema.ParseInputOf | floodwise-frontend/src/types/additionalStructure.ts:6-19 | a record survives the schema unchanged exactly when its name is 1..100 characters (doors default 0, counters optional) |
| AdditionalStructureSchema.NameLengthRejected | floodwise-frontend/src/types/additionalStructure.ts:14 | an empty name or one over 100 characters is refused |
| AdditionalStructureSchema.UnknownTypeRejected | floodwise-frontend/src/types/additionalStructure.ts:3-15 | a type other than garage, shed or outbuilding is refused |
| AdditionalStructureSchema.NegativeCounterRejected | floodwise-frontend/src/types/additionalStructure.ts:6-11 | a negative or fractional airbrick count is refused |
| AdditionalStructureSchema.IsConnectedRequired | floodwise-frontend/src/types/additionalStructure.ts:16 | leaving out `isConnected` is refused |
| AdditionalStructureSchema.CounterRoundTrip | floodwise-frontend/src/types/additionalStructure.ts:6-11 | every optional non-negative counter passes the counter schema and comes back unchanged |
| AdditionalStructureSchema.BuildingTypeRoundTrip | floodwise-frontend/src/types/additionalStructure.ts:3-15 | every building type's name is accepted by the enum and parses back to the same type |
| AddressSchema.Parse | floodwise-frontend/src/types/address.ts:4-12 | an address is produced exactly when the object passes the schema |
| AddressSchema.ParseInputOf | floodwise-frontend/src/types/address.ts:4-12 | an address survives unchanged exactly when its four required lines are non-empty |
| AddressSchema.AdditionalLineOptional | floodwise-frontend/src/types/address.ts:8 | the additional line, absent, null or given, never decides acceptance |
| AddressSchema.MissingLineRejected | floodwise-frontend/src/types/address.ts:7-11 | an empty or missing address line, city, county or postcode is refused |
| PropertySchema.CoordinateBounds | floodwise-frontend/src/types/property.ts:8-11 | latitude must lie in -90..90 and longitude in -180..180 |
| PropertySchema.LongStateRejected | floodwise-frontend/src/types/property.ts:19 | a state code over two characters is refused |
| PropertySchema.ParsePropertyAddress | floodwise-frontend/src/types/property.ts:26-34 | a property address is produced exactly when the object passes the schema |
| PropertySchema.PropertyAddressDefaultsId | floodwise-frontend/src/types/property.ts:27-33 | every back-end address is accepted unchanged; without an id it is accepted as id 0 |
| PropertySchema.ParsePropertyDto | floodwise-frontend/src/types/property.ts:40-63 | a property is produced exactly when the object passes the schema |
| PropertySchema.AttributesDefaultToEmpty | floodwise-frontend/src/types/property.ts:43-62 | left-out attribute lists become empty; kept answers are non-empty with codes of 1..300 characters |
| PropertySchema.BadAttributeRejected | floodwise-frontend/src/types/property.ts:52-62 | one attribute with an empty answer refuses the whole property |
| PropertySchema.NullAttributesRejected | floodwise-frontend/src/types/property.ts:62 | a null attribute list is refused |
| PropertySchema.EmptyInfoFieldRejected | floodwise-frontend/src/types/property.ts:13-24 | an empty or missing id, name, address, city, zip, authority or flood zone, or missing coordinates, refuses the property information |
| CustomerSchema.OptionalFieldsMayBeAbsent | floodwise-frontend/src/types/customer.ts:10-19 | reference, password and properties may be null or absent; sid and the flags never decide acceptance |
| CustomerSchema.OverlongTextRejected | floodwise-frontend/src/types/customer.ts:13-16 | a reference, password or e-mail over 100 characters is refused |
| CustomerSchema.PropertiesChecked | floodwise-frontend/src/types/customer.ts:19 | every listed property must pass the property schema |
| UploadCsvSchema.SeparatorIssues | floodwise-frontend/src/types/uploadCustomersCSVRequest.ts:9-12 | a one-character separator reports nothing |
| UploadCsvSchema.ValidIff | floodwise-frontend/src/types/uploadCustomersCSVRequest.ts:7-13 | a request is accepted exactly with a file and a one-character separator |
| UploadCsvSchema.EmptySeparatorIssues | floodwise-frontend/src/types/uploadCustomersCSVRequest.ts:11-12 | an empty separator reports "Separator is required." and "Separator must be a single character." |
| UploadCsvSchema.LongSeparatorIssues | floodwise-frontend/src/types/uploadCustomersCSVRequest.ts:12 | a longer separator reports only "Separator must be a single character." |
| UploadCsvSchema.MissingFileReported | floodwise-frontend/src/types/uploadCustomersCSVRequest.ts:8 | without a file the first message is "File is required." |

## Left out

- Rendering, styling, animation and layout are not modelled. This covers JSX, `cn`, the sidebar, scroll timers and mobile detection. None of it decides state.
- `isItemInstalled` is imported from `lib/utils.ts`, but that file does not define it. It is a predicate parameter `installed`, and no body is invented for it.
- The card's and the guide's notions of "installed" are modelled separately. They disagree, as `FloodKitInstallationView.InstalledBadgeAgreesWithCard` shows: an item without steps reads "Completed" on its card but never shows "Installed" in the guide.
- Step display also differs between the two. The guide shows `entry ?? step.isCompleted`, while the card shows `entry ?? false`.
- FloodKitProgressCard.ProtectedPercentageOnPage: "100% means all installed" is stated only for fewer than 200 items, because `Math.round` shows 199 of 200 as 100% (`FullPercentageWithOneLeft`).
- FloodKitInstallationView.NextId: the source's `hasNext` is also true when no item is selected (index -1). The model keeps that value, and `NextId` then names the first item.
- Ids from `Date.now().toString()`, timestamps from `new Date()` and today's date are parameters. The clock itself is not modelled.
- `calculateAge` compares (month, day) on plain `Date` values; time zones and the `date-fns` formatting of the picked date are not modelled.
- The e-mail format check of `z.string().email()` is a predicate parameter `isEmail`.
- `z.coerce.date()` is modelled only through its outcome: a valid timestamp, an invalid date or an absent value. `null` and `undefined` for `answeredAt` are one case.
- `z.instanceof(File)` is the boolean `isFile`.
- The CSV schema's library messages for a missing or `null` separator are modelled by their text only.
- `toLowerCase` and `toUpperCase` are modelled for ASCII letters only. Unicode case mapping is outside the model.
- `parseInt` is modelled for an optional sign followed by decimal digits. Leading whitespace, hexadecimal prefixes and exponents are not modelled.
- PropertyConstruction.PropertyConstructionView.EnterAirbrick: the browser's `type="number"` input filtering is not modelled; the typed text goes straight to `parseInt`.
- `formatFileSize` in `Documents.tsx` and the file input's DOM reset are display details and are left out.
- Navigation is modelled as the target it would open (`NavigateTo`), or as the selection it changes. `useNavigate` and `<Link>` themselves are left out.
- The API, authentication and notification types, `console.log` and the data-fetching placeholders have no behaviour to model.
- react-hook-form is reduced to its outcome. Cancel restores the defaults, and submit closes the form exactly when the schema accepts. Per-field error messages are not modelled.
- VerifyDetails.PersonalInfoCard.ToggleEditing: the pencil closes the form without resetting it, as the source does, so unsaved values survive.
- Handlers the interface only offers in certain states carry that as a `requires`:
  - FloodInformations.FloodInformationsView.SetUnderstands and ToggleUnderstands require the completion view to be hidden, because the checkbox is not rendered while it shows.
  - FloodInformations.FloodInformationsView.ClickComplete requires step 4, where the Complete button is rendered.
  - OtherStructures.OtherStructuresView.HandleConfirmDelete requires that no form is open, because the delete buttons are disabled then. HandleStartEditing requires an index of a listed structure.
  - FamilyMembers.FamilyMembersView.HandleSaveFamilyMemberEdit requires that the member is the one being edited, because the Save button belongs to that member's row.
  - PropertyConstruction.PropertyConstructionView.SelectMaterial requires one of the six listed materials, because only those are buttons.
- OtherStructures.OtherStructuresView.HandleSaveStructure stores the form without validating it, as the source does. `EmptyFormIsNotSchemaValid` shows that the reset form fails the structure schema.
- YourFloodPlanDialog.FloodPlanDialog.RequestOpenChange: with a controlled `open` and no `onOpenChange`, a close request changes only the internal flag, which the controlled value hides.
- JsMath.RoundedPercent: rounds the exact quotient half-up. The source rounds `(a / b) * 100` as computed in doubles, and that can fall just below an exact half. So 23 of 40 shows 57 in the app and 58 in the model, and 29 of 200 shows 14 against 15. Results away from an exact half agree. The 100% and under-100% lemmas hold either way.
- String lengths in `.min(n)` and `.max(n)` (VerifyDetails.tsx and the `types/*.ts` schemas) are counted in Dafny characters. JavaScript counts UTF-16 code units, so a character outside the Basic Multilingual Plane counts twice in the source and once here.
- PropertyConstruction.ParseDecimalString: `parseInt` returns a double, and the source keeps it as one. Counts above 2^53 are not exact there, but the model keeps the exact integer.
- FamilyMembers.FamilyMembersView.HandleAddFamilyMember appends the corrected `NewMember`, which always takes the fresh id. The source spreads the form over the fresh id, so a form still holding an edited member's id adds a duplicate. That behaviour is shown separately by `NewMemberAsWritten` and `AddAsWrittenDuplicatesId` (see "## Findings").
- VerifyDetails.DefaultAddressLength: an address over 70 characters fills the property form with a value its own schema refuses, so the untouched form cannot be saved.

## Findings

| source | as written | input that shows it | evidently intended | confidence | as-written member | corrected member |
|---|---|---|---|---|---|---|
| floodwise-frontend/src/components/flood-plan/flood-plan-tabs/FamilyMembers.tsx:88-91 | the new member is `{ id: fresh, ...familyFormData }`, so an `id` the form still carries from an edit overrides the fresh id | load member "1" into the form with Edit, then press Add: the list holds two members with id "1", and deleting one removes both | the added member always gets the fresh id, so ids stay unique | not executed | FamilyMembers.NewMemberAsWritten, FamilyMembers.AddAsWrittenDuplicatesId | FamilyMembers.NewMember, FamilyMembers.AddKeepsIdsUnique |
