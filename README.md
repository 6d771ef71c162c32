# Angular training exercises: the logic inside the components, in Dafny

The repository is a set of Angular exercises. Most of it is templates and
wiring. This project models the parts that hold real logic, one Dafny module
per component file:

- **TeamData / TeamBuilder**: the team budget selector. Ticking a player's
  checkbox adds the player to `myTeam` only while the total salary stays
  within 100000 (inclusive). Otherwise a banner "Budget exceeded! Cannot add
  player." is raised and the checkbox is forced back off. Unticking subtracts
  the salary and removes the player by id.
  - `TeamBuilderComponent` is a class whose methods are proved against pure
    transition functions on a `TeamState` value.
  - The lemmas prove the budget invariant (total = sum of salaries ≤ 100000,
    no duplicates), the check-then-uncheck round trip and the scenarios on the
    ten-player roster.
  - They also prove that along any sequence of clicks on the page each box is
    ticked exactly when its player is in the team.
- **Todo / ItemEditor**: the to-do list.
  - `items` is a filtered view of `allItems`.
  - `addItem` prepends a new active item and ignores empty text.
  - `remove` drops by object identity.
  - `ItemComponent.saveItem` edits the shared item object in place, so the
    list sees the edit.
- **Avatar**: the initials getter. It splits on single spaces exactly as
  JavaScript `split(' ')` does, drops empty parts, takes the first characters
  of the first two words and upper-cases them.
- **CustomDirective**: the input sanitiser `value.replace(/[^a-zA-Z\s]/g, '')`,
  with the JavaScript `\s` character set written out.
- **ProductDetails / Products**:
  - the rating-to-label chain of `ngOnChanges` and the `onClick` report;
  - the parent's `updateFirstProduct`, `toggleProducts` and report prefix.
- **EmployeeList / EmployeeForm**:
  - the append-only `employee` input setter and the empty-list notice;
  - the form that emits a copy of its bound object and then replaces it with
    a blank one.
- **ChangeLog**: `ChildComponent3.ngOnChanges`, which appends one line
  "Count changed. Prev: p, Current: c, First: f" per change of `count`.
  - `JsText` models how a template literal writes integers, booleans and
    `undefined`.
  - The change record can be read back from the line.

Helper modules: `Wrappers` (`Option`), `NgChanges` (Angular's `SimpleChange`
record), `Seqs` (subsequence).

## Model

| member | source | states |
|---|---|---|
| TeamData.WithoutId | Day_11/src/app/team-builder/team-builder.ts:181 | filtering by id keeps exactly the entries with another id and leaves no entry with that id |
| TeamData.WithoutIdKeepsOrder | Day_11/src/app/team-builder/team-builder.ts:181 | removal by id keeps the remaining players in their original order, the order the team list shows |
| TeamData.WithoutIdCounts | Day_11/src/app/team-builder/team-builder.ts:181 | every entry with another id survives as many times as it occurs; entries with the id are gone |
| TeamData.SumSalaries | Day_11/src/app/team-builder/team-builder.ts:168-180 | definition: the sum the total tracks; properties in SumAppend, SumWithoutMember, SumCovers and RosterTotal |
| TeamData.SumAppend | Day_11/src/app/team-builder/team-builder.ts:171-172 | appending a player adds its salary to the team's total |
| TeamData.WithoutAbsentId | Day_11/src/app/team-builder/team-builder.ts:181 | filtering out an id that is not in the team returns the team unchanged |
| TeamData.WithoutIdDistinct | Day_11/src/app/team-builder/team-builder.ts:181 | filtering keeps a team free of duplicate ids |
| TeamData.SumWithoutMember | Day_11/src/app/team-builder/team-builder.ts:180-181 | for a member of a duplicate-free team, removing by its id lowers the sum of salaries by exactly its salary |
| TeamData.SumNonNegative | Day_11/src/app/data/team.data.ts:4-13 | a team of non-negative salaries has a non-negative total |
| TeamData.SumCovers | Day_11/src/app/data/team.data.ts:3-14 | a duplicate-free sub-team of a team costs no more than the team |
| TeamData.RosterIdsDistinct | Day_11/src/app/data/team.data.ts:3-14 | the roster has 10 entries with ids 1..10, pairwise distinct |
| TeamData.RosterSalariesFit | Day_11/src/app/data/team.data.ts:4-13 | every salary is positive and at most 100000, so any one player fits an empty team |
| TeamData.AliceAndDianaFitExactly | Day_11/src/app/data/team.data.ts:4-7 | Alice and Diana together cost exactly 100000 |
| TeamData.CharlieAndAliceExceed | Day_11/src/app/data/team.data.ts:4-6 | Charlie and Alice together cost 124000, over the ceiling |
| TeamData.RosterTotal | Day_11/src/app/data/team.data.ts:3-14 | the whole roster costs 619000 |
| TeamData.FullRosterNeverFits | Day_11/src/app/data/team.data.ts:3-14 | every team within budget drawn from the roster leaves some roster player out |
| TeamBuilder.CheckCommitsWithinBudget | Day_11/src/app/team-builder/team-builder.ts:167-172 | a tick with new total ≤ 100000 (inclusive) appends the player, sets the total to the sum and leaves the box ticked |
| TeamBuilder.CheckRejectedOverBudget | Day_11/src/app/team-builder/team-builder.ts:173-177 | a tick over the ceiling leaves team and total unchanged, raises the banner with the budget message and unticks the box |
| TeamBuilder.UncheckRemovesById | Day_11/src/app/team-builder/team-builder.ts:178-182 | an untick subtracts the salary, removes every entry with the player's id and leaves the banner as it was |
| TeamBuilder.Toggle | Day_11/src/app/team-builder/team-builder.ts:164-183 | the box ends ticked exactly when it was ticked and the new total fits the ceiling; the banner and message change only on a refused tick; each branch in CheckCommitsWithinBudget, CheckRejectedOverBudget and UncheckRemovesById |
| TeamBuilder.RaiseError | Day_11/src/app/team-builder/team-builder.ts:186-188 | definition; properties in CheckRejectedOverBudget and ShowErrorModal |
| TeamBuilder.HideError | Day_11/src/app/team-builder/team-builder.ts:191-193 | definition; properties in HideErrorKeepsMessage |
| TeamBuilder.AppendDistinct | Day_11/src/app/team-builder/team-builder.ts:172 | appending a player whose id is absent keeps the team free of duplicate ids |
| TeamBuilder.ToggleKeepsInvariant | Day_11/src/app/team-builder/team-builder.ts:164-183 | every toggle (adding an absent player or removing a present one) keeps total = sum of salaries ≤ 100000 with distinct ids |
| TeamBuilder.NoOverBudgetBadge | Day_11/src/app/team-builder/team-builder.ts:80 | under the invariant the red "over" badge test is false |
| TeamBuilder.OverBudgetBadge | Day_11/src/app/team-builder/team-builder.ts:80 | definition of the badge's class test; properties in NoOverBudgetBadge |
| TeamBuilder.WithoutIdAppended | Day_11/src/app/team-builder/team-builder.ts:172-181 | removing by id a player just appended (absent before) gives back the team |
| TeamBuilder.CheckThenUncheckRestores | Day_11/src/app/team-builder/team-builder.ts:171-181 | ticking an absent player that fits and then unticking it restores the whole state |
| TeamBuilder.HideErrorKeepsMessage | Day_11/src/app/team-builder/team-builder.ts:191-193 | the timer callback hides the banner and changes nothing else, the message included |
| TeamBuilder.InitialPage | Day_11/src/app/team-builder/team-builder.ts:52-58 | the first rendering has one unticked box per roster player |
| TeamBuilder.Click | Day_11/src/app/team-builder/team-builder.ts:52-58 | a click on one box (the browser flips it, then the change handler runs) leaves every other box as it was; the invariant in ClickKeepsPageInvariant |
| TeamBuilder.Clicks | Day_11/src/app/team-builder/team-builder.ts:52-58 | definition; properties in ClicksKeepPageInvariant and the two scenarios |
| TeamBuilder.RosterEntryById | Day_11/src/app/data/team.data.ts:3-14 | in a team drawn from the roster, the presence of a roster id means that very roster entry is present |
| TeamBuilder.ClickKeepsPageInvariant | Day_11/src/app/team-builder/team-builder.ts:52-58 | a click on any box keeps the budget invariant and "box ticked ⇔ player in team" |
| TeamBuilder.ClicksKeepPageInvariant | Day_11/src/app/team-builder/team-builder.ts:164-183 | the same holds after any sequence of clicks |
| TeamBuilder.InitialPageInvariant | Day_11/src/app/team-builder/team-builder.ts:157-161 | the initial state (empty team, total 0) satisfies the page invariant |
| TeamBuilder.CharlieThenAliceScenario | Day_11/src/app/team-builder/team-builder.ts:167-177 | ticking Charlie then Alice commits Charlie, refuses Alice with the banner and leaves Alice's box off |
| TeamBuilder.AliceThenDianaScenario | Day_11/src/app/team-builder/team-builder.ts:167-172 | ticking Alice then Diana commits both at exactly 100000 with no banner |
| TeamBuilder.TeamBuilderComponent.constructor | Day_11/src/app/team-builder/team-builder.ts:154-161 | the component starts on the roster with an empty team, total 0 and no banner |
| TeamBuilder.TeamBuilderComponent.OnPlayerToggle | Day_11/src/app/team-builder/team-builder.ts:164-183 | the new fields and the checkbox's `checked` are the toggle transition of the old ones |
| TeamBuilder.TeamBuilderComponent.ShowErrorModal | Day_11/src/app/team-builder/team-builder.ts:186-188 | sets the message and shows the banner, nothing else |
| TeamBuilder.TeamBuilderComponent.ErrorTimerFired | Day_11/src/app/team-builder/team-builder.ts:191-193 | the deferred callback only hides the banner |
| Todo.WithDone | Day_12/src/app/todo/todo.ts:33-35 | the filter result holds exactly the items of the list with the wanted `done` flag |
| Todo.Without | Day_12/src/app/todo/todo.ts:51-53 | removal keeps exactly the entries that are not this very object |
| Todo.View | Day_12/src/app/todo/todo.ts:26-36 | definition; properties in ViewAll, ViewFiltersInOrder and ViewsPartition |
| Todo.TodoComponent.Items | Day_12/src/app/todo/todo.ts:26-36 | definition: the view of the current filter over the current list; properties in ViewAll, ViewFiltersInOrder and ViewsPartition |
| Todo.ViewAll | Day_12/src/app/todo/todo.ts:30-32 | with filter 'all' the view is the whole list |
| Todo.ViewFiltersInOrder | Day_12/src/app/todo/todo.ts:33-35 | the 'done' and 'active' views hold exactly the matching items, as a subsequence of the list |
| Todo.WithDoneIsSubsequence | Day_12/src/app/todo/todo.ts:33-35 | filtering keeps list order |
| Todo.ViewsPartition | Day_12/src/app/todo/todo.ts:33-35 | the 'done' and 'active' view lengths add up to the list length |
| Todo.NewItemIsActive | Day_12/src/app/todo/todo.ts:41-47 | a new not-done item at the front heads the 'active' view and leaves the 'done' view unchanged |
| Todo.RemoveAbsent | Day_12/src/app/todo/todo.ts:50-53 | removing an item that is not in the list changes nothing |
| Todo.RemoveKeepsOrder | Day_12/src/app/todo/todo.ts:50-53 | removal keeps the other items in their order |
| Todo.RemoveCounts | Day_12/src/app/todo/todo.ts:51-53 | every copy of the removed object goes and every other entry keeps all its copies |
| Todo.TodoComponent.constructor | Day_12/src/app/todo/todo.ts:18-24 | filter 'all' and the three initial items, only the first done |
| Todo.TodoComponent.AddItem | Day_12/src/app/todo/todo.ts:38-48 | empty text changes nothing; other text puts a fresh not-done item with that text first, the old list after it |
| Todo.TodoComponent.Remove | Day_12/src/app/todo/todo.ts:50-54 | the new list is the old one without the entries identical to the item |
| ItemEditor.ItemComponent.SaveItem | Day_12/src/app/item/item.ts:19-24 | empty text changes nothing; other text leaves edit mode and writes the description into the same item object; `done` is untouched |
| ItemEditor.SaveThroughComponent | Day_12/src/app/item/item.ts:23 | a save through the item component is seen by the list holding the same object, whose entries stay the same |
| ItemEditor.ItemComponent.constructor | Day_12/src/app/item/item.ts:14-16 | the component starts out of edit mode, holding the given item object itself |
| Avatar.Split | Day_11/src/app/shared/avatar/avatar.ts:21 | `split(' ')` gives at least one part and no part contains a space |
| Avatar.NonEmpty | Day_11/src/app/shared/avatar/avatar.ts:21 | `filter(Boolean)` keeps exactly the non-empty parts |
| Avatar.Words | Day_11/src/app/shared/avatar/avatar.ts:21 | every word is non-empty and free of spaces; see also NoWordsIffBlank and WordsConcat |
| Avatar.FirstChar | Day_11/src/app/shared/avatar/avatar.ts:22-23 | a missing word or an empty one contributes at most one character |
| Avatar.ToUpper | Day_11/src/app/shared/avatar/avatar.ts:24 | upper-casing maps a-z to A-Z and leaves no lower-case ASCII letter |
| Avatar.Upper | Day_11/src/app/shared/avatar/avatar.ts:24 | upper-casing a string works character by character and keeps its length |
| Avatar.Initials | Day_11/src/app/shared/avatar/avatar.ts:20-25 | the initials are at most two characters, none of them a lower-case ASCII letter |
| Avatar.JoinSplit | Day_11/src/app/shared/avatar/avatar.ts:21 | joining the split parts with spaces gives back the name |
| Avatar.SplitJoin | Day_11/src/app/shared/avatar/avatar.ts:21 | splitting a space-joined list of space-free parts gives back the parts |
| Avatar.SplitWord | Day_11/src/app/shared/avatar/avatar.ts:21 | a string without spaces splits into itself |
| Avatar.SplitConcat | Day_11/src/app/shared/avatar/avatar.ts:21 | splitting distributes over a space |
| Avatar.NonEmptyConcat | Day_11/src/app/shared/avatar/avatar.ts:21 | dropping empty parts distributes over concatenation |
| Avatar.WordsConcat | Day_11/src/app/shared/avatar/avatar.ts:21 | the words of two names joined by a space are the words of each |
| Avatar.NoWordsIffBlank | Day_11/src/app/shared/avatar/avatar.ts:21 | a name has no words exactly when it is empty or all spaces |
| Avatar.BlankNameNoInitials | Day_11/src/app/shared/avatar/avatar.ts:21-24 | the initials are empty exactly when the name is empty or all spaces |
| Avatar.SingleWordInitial | Day_11/src/app/shared/avatar/avatar.ts:22-24 | a single word gives its first character upper-cased |
| Avatar.TwoWordInitials | Day_11/src/app/shared/avatar/avatar.ts:22-24 | two words give both first characters upper-cased |
| Avatar.LaterWordsIgnored | Day_11/src/app/shared/avatar/avatar.ts:22-23 | once there are two words, anything appended is ignored |
| Avatar.RepeatedSpacesIgnored | Day_11/src/app/shared/avatar/avatar.ts:21 | doubling a space does not change the initials |
| Avatar.OuterSpacesIgnored | Day_11/src/app/shared/avatar/avatar.ts:21 | leading and trailing spaces do not change the initials |
| CustomDirective.Sanitize | Day_12/src/app/custom-directive.ts:16 | the output is no longer than the input and holds only ASCII letters and whitespace |
| CustomDirective.IsAsciiLetter | Day_12/src/app/custom-directive.ts:16 | definition of `a-zA-Z`; used by Allowed |
| CustomDirective.IsWhitespace | Day_12/src/app/custom-directive.ts:16 | definition of the JavaScript `\s` class; used by Allowed |
| CustomDirective.Allowed | Day_12/src/app/custom-directive.ts:16 | definition: the complement of `[^a-zA-Z\s]`; properties in Sanitize, SanitizeCounts and SanitizeKeepsClean |
| CustomDirective.SanitizeIsSubsequence | Day_12/src/app/custom-directive.ts:16 | the output is the input with characters deleted, order kept |
| CustomDirective.SanitizeCounts | Day_12/src/app/custom-directive.ts:16 | every allowed character keeps all its occurrences and every other character has none |
| CustomDirective.SanitizeKeepsClean | Day_12/src/app/custom-directive.ts:16 | input of letters and whitespace only comes back unchanged |
| CustomDirective.SanitizeIdempotent | Day_12/src/app/custom-directive.ts:16 | sanitising twice is sanitising once |
| CustomDirective.AppCustomDirective.OnInput | Day_12/src/app/custom-directive.ts:13-17 | the field's value becomes the sanitised old value |
| ProductDetails.RatingLabel | Day_12/src/app/product-details/product-details.ts:41-44 | the label is always one of Good, Very Good, Excellent, Undefined |
| ProductDetails.LabelRoundTrip | Day_12/src/app/product-details/product-details.ts:41-44 | ratings 3.5, 4.0 and 4.5 and their labels determine each other; every other rating gives "Undefined" |
| ProductDetails.OnChanges | Day_12/src/app/product-details/product-details.ts:37-46 | the label is either the old one or one of the four words; properties in RelabelledOnRatingChange and OtherChangesKeepLabel |
| ProductDetails.ReportMessage | Day_12/src/app/product-details/product-details.ts:70-73 | definition; properties in ReportMessageCarriesLabel |
| ProductDetails.RelabelledOnRatingChange | Day_12/src/app/product-details/product-details.ts:39-45 | after a rating change the label is the new rating's label, one of the four words |
| ProductDetails.OtherChangesKeepLabel | Day_12/src/app/product-details/product-details.ts:39 | changes without 'SalesRating' keep the label |
| ProductDetails.ReportMessageCarriesLabel | Day_12/src/app/product-details/product-details.ts:70-73 | the report is the fixed prefix followed by the label, which can be read back |
| ProductDetails.ProductDetailsComponent.constructor | Day_12/src/app/product-details/product-details.ts:29-31 | rating 3.5 and label 'Default' before any change |
| ProductDetails.ProductDetailsComponent.NgOnChanges | Day_12/src/app/product-details/product-details.ts:37-46 | the new label is the change function of the old label, the rating field is untouched |
| ProductDetails.ProductDetailsComponent.OnClick | Day_12/src/app/product-details/product-details.ts:70-74 | emits the prefix followed by the current label |
| Products.RateFirst | Day_12/src/app/products/products.ts:73 | the re-rated list has the same length |
| Products.RateFirstChangesOnlyFirstRating | Day_12/src/app/products/products.ts:73-78 | index 0 gets rating 3.5 and keeps its id, name and quantity; later entries are unchanged |
| Products.RateFirstIdempotent | Day_12/src/app/products/products.ts:73-78 | re-rating twice is re-rating once; an empty list stays empty |
| Products.RateFirstLabelsGood | Day_12/src/app/products/products.ts:75 | the re-rated first product is labelled "Good" by its details component |
| Products.InitialLabels | Day_12/src/app/products/products.ts:62-66 | the initial ratings label as Excellent, Very Good and Good |
| Products.ProductsComponent.constructor | Day_12/src/app/products/products.ts:59-66 | message 'No report yet.', products shown, the three initial products |
| Products.ProductsComponent.OnGetLocalSalesReport | Day_12/src/app/products/products.ts:68-70 | the message is the report prefix followed by the child's text, nothing else changes |
| Products.ProductsComponent.UpdateFirstProduct | Day_12/src/app/products/products.ts:72-80 | the list becomes its re-rated copy, nothing else changes |
| Products.ProductsComponent.ToggleProducts | Day_12/src/app/products/products.ts:82-85 | flips the visibility flag, nothing else changes |
| Products.ToggleTwiceRestores | Day_12/src/app/products/products.ts:82-83 | toggling twice restores the visibility flag |
| Products.ReportAfterRerating | Day_12/src/app/products/products.ts:68-78 | re-rating, then the first row's child receiving the change from the old rating to 3.5 and being clicked, ends with the report of label "Good" |
| EmployeeList.RenderShowsNoticeIffEmpty | Day_12/src/app/employee-list/employee-list.ts:11-32 | the notice shows exactly when the list is empty; otherwise every entry is a row, in order |
| EmployeeList.Render | Day_12/src/app/employee-list/employee-list.ts:11-32 | definition; properties in RenderShowsNoticeIffEmpty |
| EmployeeList.Present | Day_12/src/app/employee-list/employee-list.ts:43-47 | a run of input writes adds at most one entry per write |
| EmployeeList.PresentConcat | Day_12/src/app/employee-list/employee-list.ts:43-47 | the entries from two runs of writes are those of the first followed by those of the second |
| EmployeeList.SameEmployeeTwice | Day_12/src/app/employee-list/employee-list.ts:45 | writing the same employee twice lists it twice |
| EmployeeList.EmployeeListComponent.constructor | Day_12/src/app/employee-list/employee-list.ts:40 | the list starts empty |
| EmployeeList.EmployeeListComponent.SetEmployee | Day_12/src/app/employee-list/employee-list.ts:42-47 | a present value is appended at the end, an absent one changes nothing, earlier entries stay |
| EmployeeForm.EmployeeRecord.constructor | Day_12/src/app/employee-form/employee-form.ts:61 | a record holds the given name, email and phone |
| EmployeeForm.EmployeeFormComponent.constructor | Day_12/src/app/employee-form/employee-form.ts:57 | the form starts bound to a new blank employee |
| EmployeeForm.EmployeeFormComponent.AddEmployee | Day_12/src/app/employee-form/employee-form.ts:60-63 | emits a new object with the form's name, email and phone, then leaves the form bound to another new blank one |
| EmployeeForm.EmployeeFormComponent.ClearForm | Day_12/src/app/employee-form/employee-form.ts:64-66 | binds a new blank employee |
| EmployeeForm.EditAfterAdd | Day_12/src/app/employee-form/employee-form.ts:61 | typing into the form or clearing it after a submit leaves the emitted copy as it was |
| EmployeeForm.ClearTwice | Day_12/src/app/employee-form/employee-form.ts:64-66 | clearing twice leaves the form blank, as clearing once does |
| JsText.DigitChar | Day_12/src/app/child-3/child-3.ts:32 | a digit value maps to the decimal digit character with that value |
| JsText.NatText | Day_12/src/app/child-3/child-3.ts:32 | a natural number is written as a non-empty run of digits |
| JsText.NatTextRoundTrip | Day_12/src/app/child-3/child-3.ts:32 | reading the digits back gives the number |
| JsText.IntText | Day_12/src/app/child-3/child-3.ts:32 | an integer is written as non-empty text without commas |
| JsText.IntTextRoundTrip | Day_12/src/app/child-3/child-3.ts:32 | reading the integer text back gives the integer |
| JsText.BoolText | Day_12/src/app/child-3/child-3.ts:32 | definition of `${firstChange}`; properties in ChangeEntryRoundTrip |
| JsText.OptionalIntText | Day_12/src/app/child-3/child-3.ts:32 | a possibly undefined count is written without commas |
| ChangeLog.ChangeEntry | Day_12/src/app/child-3/child-3.ts:32 | definition; properties in ChangeEntryRoundTrip and ChangeEntryInjective |
| ChangeLog.FirstIndex | Day_12/src/app/child-3/child-3.ts:32 | the index found is the first occurrence of the character, or the end |
| ChangeLog.FirstIndexAtBoundary | Day_12/src/app/child-3/child-3.ts:32 | the first comma of a line follows the comma-free text before it |
| ChangeLog.ChangeEntryRoundTrip | Day_12/src/app/child-3/child-3.ts:30-33 | the previous value, the current value and the first-change flag can be read back from the log line |
| ChangeLog.ChangeEntryInjective | Day_12/src/app/child-3/child-3.ts:30-33 | different changes give different log lines |
| ChangeLog.NewEntries | Day_12/src/app/child-3/child-3.ts:29-34 | one line when 'count' changed, none otherwise |
| ChangeLog.ChildComponent3.constructor | Day_12/src/app/child-3/child-3.ts:25-26 | count 0 and an empty log |
| ChangeLog.ChildComponent3.NgOnChanges | Day_12/src/app/child-3/child-3.ts:28-35 | the log is the old log followed by the new lines; earlier lines and the count stay as they were |

## Left out

- The 3-second `setTimeout` in `showErrorModal` is modelled as an explicit
  `ErrorTimerFired` step. When it fires, and how overlapping timers interact,
  is not modelled.
- Progress-bar percentage and `toLocaleString` formatting of the total and
  the salaries are left out. They use floating point and the locale.
- Console logging and the lifecycle hooks that only log are left out. They
  are I/O, and Angular fixes the hook order.
- Sales ratings are modelled as exact `real` values compared exactly, not as
  IEEE doubles.
- The constructor of `appCustomDirective` that sets border and padding styles
  is left out. It is DOM styling with nothing to state.
- The other DOM directives (`ZoomCharacter`, `MyHighlight`), theme
  persistence through `localStorage`, and `Math.random` ids live outside the
  modelled files. They are browser I/O or nondeterministic.
- Angular's own delivery of input values and change records is taken as a
  given. Callers pass the `SimpleChanges` map and the setter's argument.
- TeamBuilder.ToggleKeepsInvariant: requires the player to be absent when
  ticked and present when unticked. The handler does not check membership on
  removal: unticking a non-member would still subtract its salary. The page
  lemmas derive these conditions from the checkboxes instead of assuming
  them.
- TeamBuilder.ToggleKeepsInvariant: requires non-negative salaries. Every
  roster salary is positive, which `RosterSalariesFit` proves.
- Avatar.ToUpper: upper-cases ASCII letters only. Full Unicode case mapping,
  which can change length (for example 'ß' to "SS"), is not modelled.
- Avatar.Initials: works on code points, while `charAt` works on UTF-16 code
  units. Characters outside the Basic Multilingual Plane are not modelled.
  The `name || ''` guard for a null name is not modelled either, because
  names are always strings here.
- EmployeeList.EmployeeListComponent.SetEmployee: JavaScript truthiness is
  reduced to `Some` (pushed) versus `None` (null or undefined). Other falsy
  values such as 0 or "" are not modelled, because the form only emits
  objects.
- ChangeLog: counts are integers written in decimal, as the counter
  increments and decrements produce. Non-integer JavaScript numbers and
  exponent notation are not modelled.
