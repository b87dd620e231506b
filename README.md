# Household stock tracker, modelled in Dafny

A household keeps track of its recurring groceries and of its household
tasks. Each product records how many days it lasts, how many days before it
runs out a reminder is wanted, and when it was last restocked. It moves
through the statuses `stocked`, `reminded`, `on_list` and `bought`, and it
can be retired (soft-deleted) by clearing its `is_active` flag. A scan that
runs on a schedule does two things:

- it messages each household, through its linked chat, about its products
  that are due;
- it also sends the household its due tasks.

Members of the household can change products and tasks from three places:
chat commands, the product card, and the shopping-list, product-form and
task pages.

The project models these:

- **Store** (`store.dfy`): the tables `households`, `products`, `reminders`
  and `reminder_log`.
  - They are the `seq` fields of the class `Store.Database`, with an id
    counter for inserts.
  - A column-wise `update({...})` is a patch (`ProductPatch`,
    `ReminderPatch`) applied to the rows whose ids are selected.
  - `Store.TimingView` models the view `products_with_timing`.
- **Chat webhook** (`webhook.dfy`): the dispatch of the trimmed text, the
  `/voeg` / `/add` argument parser, and the `/gekocht` match-and-reset.
  - `/lijst` and `/voorraad` are modelled as queries over the view.
  - `Webhook.Respond` states what the handler decides, as a function.
  - `Webhook.Post` carries that decision out step by step against the
    store.
- **Reminder scan** (`checkreminders.dfy`): the cron secret check, the
  due-product query, and the grouping loop that fills `byHousehold` and
  `remindersByHH`.
  - The dispatch loop sends one message per household. When the send
    succeeds, it moves that household's products to `reminded` and writes
    one log row per product.
  - The task part sends the due tasks and counts each task household as
    sent.
  - The summary counts.
- **Product card** (`productcard.dfy`): the urgency colour bands and the
  days badge.
  - "Bought" honours recurrence: a recurring product restarts its timer,
    and a one-off product is retired.
  - "Add to list" and "remove".
- **Shopping list** (`shoppinglist.dfy`): the list query, single "bought"
  and "bought all", both always restocking.
- **Product form** (`productform.dfy`): the starting values, the name check,
  and create versus edit.
- **Home page** (`homepage.dfy`): the split of the loaded products into the
  stocked list and the on-list list.
- **Tasks page** (`reminders.dfy`):
  - the upcoming/done split and the overdue marker;
  - "done", which moves a repeating task on by its period and flips every
    other task's `is_done`;
  - task form validation and normalisation;
  - hard delete.
- **Shared modules**:
  - `types.dfy`: the rows;
  - `text.dfy`: ASCII trimming, splitting on whitespace, decimal numbers,
    case folding;
  - `seqs.dfy`: filtering, stable insertion sort and first match;
  - `wrappers.dfy`: `Option`.

Time is an integer count of milliseconds (`Instant`), and a calendar day is
`MsPerDay` of them, in UTC.

Chat messages go through a send function passed in as a parameter
(`CheckReminders.Sender`), which answers whether the chat service accepted
the message. The reminder scan returns the messages it tried to send, in
order, as its `outbox`.

The view's timing columns (`runs_out_at`, `remind_at`, `days_remaining`) are
also a parameter, `timing: Product -> Timing`. The view's definition is not
part of this model.

Three behaviours that look like inconsistencies are stated as lemmas:

- `ProductCard.OneOffBoughtDiffers`: the entry points disagree about one-off
  products. The chat command and the shopping list restock them, while the
  card retires them.
- `Webhook.TrailingNumberInNameIsRead`: in `/voeg Cola 2 7`, the `2` is read
  as the days and the `7` as the reminder. A name that ends in a number
  therefore cannot be given with its days alone.
- `RemindersPage.DueTodayIsNotOverdue`: a task due at midnight today is
  already picked up by the reminder scan. The tasks page does not mark it
  overdue yet.

## Model

| member | source | states |
|---|---|---|
| Text.Trim | src/app/api/telegram-webhook/route.ts:29 | `.trim()`: the result is the input with a run of whitespace cut off at each end, so it is a piece of the input whose surroundings are all whitespace; it has no whitespace at either end; it is empty exactly when the input is all whitespace |
| Text.TrimLeft | src/app/api/telegram-webhook/route.ts:66 | the result is a suffix of the input; every character dropped is whitespace; the result starts with a non-space or is empty |
| Text.TrimRight | src/app/api/telegram-webhook/route.ts:29 | the result is a prefix of the input; every character dropped is whitespace; the result ends with a non-space or is empty |
| Text.Tokens | src/app/api/telegram-webhook/route.ts:104 | the tokens of a text are non-empty and contain no whitespace |
| Text.SplitWhitespace | src/app/api/telegram-webhook/route.ts:104 | `.split(/\s+/)`: a text that starts with a non-space splits into at least one whitespace-free token; the empty text splits into one empty string |
| Text.JoinSpace | src/app/api/telegram-webhook/route.ts:127 | `.join(" ")`: the joined text begins with the first word |
| Text.TokensOfJoin | src/app/api/telegram-webhook/route.ts:127 | splitting words joined by single spaces gives back exactly those words |
| Text.Lower | src/app/api/telegram-webhook/route.ts:79 | ASCII lower-casing keeps the length and leaves no upper-case letter; an upper-case letter becomes the letter 32 code points on, every other character stays |
| Text.LowerIdempotent | src/app/api/telegram-webhook/route.ts:79 | lower-casing twice is lower-casing once |
| Text.SameIgnoringCaseLower | src/app/api/telegram-webhook/route.ts:74-79 | strings that differ only in letter case lower-case alike |
| Text.LowerSameIgnoringCase | src/app/api/telegram-webhook/route.ts:74-79 | strings that lower-case alike differ only in letter case |
| Text.MatchIgnoresCase | src/app/api/telegram-webhook/route.ts:74-79 | `ilike`: whether a name matches does not change when the letters of the name or of the searched text change case |
| Text.ContainsIgnoringCaseAt | src/app/api/telegram-webhook/route.ts:74-79 | `ilike '%x%'`: a name matches exactly when some piece of it is the searched text up to letter case |
| Text.DigitChar | src/components/ProductCard.tsx:156 | the character is a decimal digit whose value is the given digit |
| Text.NatToStringRoundTrip | src/components/ProductCard.tsx:156 | a number written out in decimal is a digit string that reads back as that number |
| Text.SplitLinesOfJoin | src/app/api/check-reminders/route.ts:69-76 | `join("\n")`: lines without line breaks joined and split again at the line breaks give back exactly those lines |
| Text.SplitLines | src/app/api/check-reminders/route.ts:69-76 | splitting at line breaks gives at least one piece and no piece holds a line break |
| Seqs.Filter | src/app/page.tsx:92 | `.filter`: the result's elements come from the input and pass the test, and every input element that passes is kept |
| Seqs.FilterAppend | src/app/page.tsx:92 | filtering distributes over concatenation |
| Seqs.FilterSplit | src/app/reminders/page.tsx:143-144 | when two tests are complementary, their filters together hold every element exactly once |
| Seqs.FilterSplit3 | src/app/page.tsx:92-95 | when three tests pick out disjoint classes that cover every element, their filters together hold every element exactly once |
| Seqs.FilterSorted | src/app/page.tsx:92-95 | filtering keeps an ordering |
| Seqs.FilterIsSubsequence | src/app/page.tsx:92-95 | a filter's result is a subsequence of its input: it keeps the input's order |
| Seqs.FilterDistinct | src/app/api/check-reminders/route.ts:23-27 | filtering keeps distinct ids distinct |
| Seqs.SortBy | src/app/page.tsx:43 | `.order(key, ascending)`: the result is ascending by the key and is a permutation of the input |
| Seqs.Insert | src/app/page.tsx:43 | inserting into an ascending sequence keeps it ascending and adds exactly that element |
| Seqs.SortByStable | src/app/page.tsx:43 | the sort is stable: the elements with any one key come out in the order they went in |
| Seqs.InsertKeepsKeyOrder | src/app/page.tsx:43 | inserting an element puts it in front of the elements with its key and keeps their order |
| Seqs.IndexOfFirst | src/app/api/telegram-webhook/route.ts:87 | the first index whose element passes the test, with every earlier element failing it; none only when no element passes |
| Store.Apply | src/app/api/check-reminders/route.ts:85-88 | a patch keeps a row's id and household |
| Store.Patched | src/app/api/check-reminders/route.ts:85-88 | `.update(patch).in("id", ids)`: rows whose id is selected get the patch, every other row is unchanged, and the length and order are kept |
| Store.RestockPatch | src/app/api/telegram-webhook/route.ts:88-95 | the reset to `stocked` with `last_restocked_at` and `updated_at` set to now, and no other column changed |
| Store.PatchedTwice | src/app/api/check-reminders/route.ts:78-97 | the same update on two id sets, one after the other, is one update on their union |
| Store.PatchedKeepsIds | src/app/api/check-reminders/route.ts:85-88 | an update keeps product ids unique |
| Store.ApplyToReminder | src/app/reminders/page.tsx:124-132 | a task update keeps the task's id, household and creation time |
| Store.PatchedReminders | src/app/reminders/page.tsx:124-132 | `.update(patch).eq("id", id)` on tasks: only the task with that id gets the patch, and the order is kept |
| Store.TimingView | src/app/page.tsx:39-43 | the view's rows are the active products, each with its own timing; every active product is in it; unique product ids stay unique |
| Store.HouseholdStock | src/app/page.tsx:39-43 | the household's view rows, ascending by days remaining, as a permutation of the household's rows |
| Store.ShoppingListRows | src/app/shopping-list/page.tsx:30-35 | ascending by days remaining, and a permutation of the household's view rows whose status is `on_list` or `reminded` (each such row as often as in the view) |
| Store.NewProductRow | src/app/api/telegram-webhook/route.ts:141-149 | an inserted product is `stocked` and active, with the columns it was given |
| Store.Database.UpdateProducts | src/app/api/check-reminders/route.ts:85-88 | products become their patched version, the other tables stay the same, and ids stay unique |
| Store.Database.InsertProduct | src/components/ProductForm.tsx:65-75 | the row is appended under the next id and the counter moves on |
| Store.Database.AppendLog | src/app/api/check-reminders/route.ts:92-95 | `reminder_log` gets the entries at its end, nothing else changes |
| Store.Database.UpdateReminder | src/app/reminders/page.tsx:102-105 | tasks become their patched version, nothing else changes |
| Store.Database.InsertReminder | src/app/reminders/page.tsx:107-111 | the task is appended under the next id and the counter moves on |
| Store.Database.DeleteReminder | src/app/reminders/page.tsx:138 | the task with that id is gone, every other task stays in order |
| Webhook.MessageText | src/app/api/telegram-webhook/route.ts:23-26 | there is text exactly when the update has a message whose text is non-empty |
| Webhook.LinkedHousehold | src/app/api/telegram-webhook/route.ts:33-42 | `.single()`: a household is found only when it is the one household linked to the chat; otherwise there is none (no linked household, or more than one) |
| Webhook.ArgumentOfTrimmedText | src/app/api/telegram-webhook/route.ts:66-71 | after a keyword and a space, a trimmed text leaves a non-empty argument, so the `/gekocht` usage reply cannot be reached |
| Webhook.Argument | src/app/api/telegram-webhook/route.ts:66 | the argument after the keyword has no whitespace at either end |
| Webhook.ArgumentIsTrimmedRest | src/app/api/telegram-webhook/route.ts:66 | `replace(/^\/kw\s+/, "").trim()`: the argument is the text after the keyword, trimmed, whatever whitespace follows the keyword |
| Webhook.NameMatchIff | src/app/api/telegram-webhook/route.ts:74-79 | a product is searched by `/gekocht` exactly when it belongs to the household, is active, and some piece of its name is the argument up to letter case |
| Webhook.BoughtIgnoresCase | src/app/api/telegram-webhook/route.ts:74-95 | `/gekocht` restocks the same product, or none, whatever the case of the argument's letters |
| Webhook.Classify | src/app/api/telegram-webhook/route.ts:44-193 | the dispatch chain in its order: exact `/list`/`/lijst`, the prefixes `/gekocht `/`/bought `, then `/add `/`/voeg `, then exact `/voorraad`/`/status`, then `/help`, otherwise no command; on trimmed text `/gekocht` has a product name and `/add` at least one token |
| Webhook.ParseAdd | src/app/api/telegram-webhook/route.ts:104-139 | a parse exists exactly when there are at least 2 tokens and the last is a number; with 3 or more tokens and two trailing numbers they are the days and the reminder, otherwise the last number is the days and the reminder is 2 |
| Webhook.ParsedNameIsLeadingTokens | src/app/api/telegram-webhook/route.ts:114-131 | the parsed name is non-empty and splits back into exactly the tokens not read as numbers |
| Webhook.LeadingWords | src/app/api/telegram-webhook/route.ts:127 | a prefix of whitespace-free tokens is whitespace-free |
| Webhook.AddRoundTrip | src/app/api/telegram-webhook/route.ts:122-129 | a name followed by days and reminder days parses back to that name and those counts |
| Webhook.AddRoundTripDefault | src/app/api/telegram-webhook/route.ts:130-132 | a name that does not end in a number, followed by days alone, parses back with the default 2-day reminder |
| Webhook.TrailingNumberInNameIsRead | src/app/api/telegram-webhook/route.ts:114-132 | when the name ends in a number and only the days follow, that number is read as the days and the days as the reminder |
| Webhook.StockMark | src/app/api/telegram-webhook/route.ts:166-172 | `!!!` exactly when run out, `(!)` exactly inside the reminder window, blank exactly otherwise |
| Webhook.StockMarkIsCardTier | src/app/api/telegram-webhook/route.ts:166-172 | the three `/voorraad` marks coincide with the product card's three colour bands |
| Webhook.ListSuffix | src/app/api/telegram-webhook/route.ts:56-59 | `/lijst` shows "(OP!)" exactly when the product has run out, otherwise the card's days badge in brackets |
| Webhook.Execute | src/app/api/telegram-webhook/route.ts:44-193 | the reply and effect of each command: `/lijst` replies the household's shopping list and `/voorraad` its stock, changing nothing; `/help` the menu; `/gekocht` with no argument the usage text, with no matching product `NotFound` of the argument, otherwise restocks the first matching product (an active product of the household whose name contains the argument, ignoring case) and names it; `/add` replies the usage text when its tokens do not parse, otherwise inserts the parsed row and echoes the parsed name and counts; only a non-command gets no reply |
| Webhook.Respond | src/app/api/telegram-webhook/route.ts:23-42 | no text, or a chat not linked to one household, gives no reply and no change; otherwise the trimmed text is run as that household's command, as `Execute` states; a restock hits an active product of the sender's household; an insert is `stocked`, active, named and in the sender's household; no reply means no change |
| Webhook.TrimmedCommandOutcome | src/app/api/telegram-webhook/route.ts:29-193 | for a trimmed text: a restock hits an active product of the household, an insert is a named, active, `stocked` product of the household, no reply means no change, and the empty-`/gekocht` usage reply never comes |
| Webhook.Post | src/app/api/telegram-webhook/route.ts:20-196 | the handler replies what `Respond` says and makes exactly its change (no write, one restock update, or one insert); other tables are untouched |
| ProductCard.Urgency | src/components/ProductCard.tsx:22-34 | overdue exactly when days <= 0; urgent exactly when 0 < days <= remind days; fine exactly otherwise |
| ProductCard.Badge | src/components/ProductCard.tsx:114-156 | "Op!" exactly when days <= 0; otherwise the decimal number of days followed by "d" (both card layouts, and the shopping list's badge at src/app/shopping-list/page.tsx:121-123, use this same expression) |
| ProductCard.ListControlFor | src/components/ProductCard.tsx:166-182 | the "Op lijstje" button exactly for a `stocked` product, the on-list label otherwise |
| ProductCard.BoughtPatch | src/components/ProductCard.tsx:36-54 | a recurring product is reset to `stocked` with its timer restarted; a one-off product only loses `is_active`, keeping status and restock time |
| ProductCard.AddToListPatch | src/components/ProductCard.tsx:58-66 | status becomes `on_list`, and only `updated_at` changes besides |
| ProductCard.RemovePatch | src/components/ProductCard.tsx:69-75 | `is_active` becomes false, and only `updated_at` changes besides |
| ProductCard.MarkBought | src/components/ProductCard.tsx:36-56 | the product with the card's id gets `BoughtPatch`, decided on the card's copy; nothing else changes |
| ProductCard.AddToList | src/components/ProductCard.tsx:58-67 | the product with the card's id gets `AddToListPatch`; nothing else changes |
| ProductCard.RemoveProduct | src/components/ProductCard.tsx:69-75 | the product with the card's id gets `RemovePatch`; nothing else changes |
| ProductCard.OneOffBoughtDiffers | src/components/ProductCard.tsx:46-53 | on a one-off active product the card's "bought" retires it, while the restock of the other entry points keeps it active and `stocked` |
| HomePage.LoadProducts | src/app/page.tsx:39-45 | ascending by days remaining, as a permutation of the household's view rows |
| HomePage.StockedList | src/app/page.tsx:92 | exactly the loaded products that are `stocked`, as a subsequence of the loaded list (so in the loaded order, and ascending when the load is) |
| HomePage.OnListList | src/app/page.tsx:93-95 | exactly the loaded products that are `on_list` or `reminded`, as a subsequence of the loaded list (so in the loaded order, and ascending when the load is) |
| HomePage.ListsPartition | src/app/page.tsx:92-95 | the two lists are disjoint, a `bought` product is in neither, and with the bought products they account for each loaded product once |
| ShoppingList.LoadItems | src/app/shopping-list/page.tsx:30-37 | ascending by days remaining, and a permutation of the household's active products that are `on_list` or `reminded`, each with its timing |
| ShoppingList.MarkBought | src/app/shopping-list/page.tsx:45-55 | the product with that id is restocked whatever its recurrence; nothing else changes |
| ShoppingList.MarkAllBought | src/app/shopping-list/page.tsx:57-68 | every listed product is restocked with the same timestamp, and every other product is unchanged |
| ProductForm.InitialState | src/components/ProductForm.tsx:33-40 | a new product starts empty with 7 days and a 2-day reminder; an edit starts from the product's name, category (empty when none) and counts |
| ProductForm.CategoryColumn | src/components/ProductForm.tsx:54 | the empty selection is stored as no category, any other selection as itself |
| ProductForm.EditPatch | src/components/ProductForm.tsx:49-59 | an edit sets the trimmed name, the category, both counts and `updated_at`, and keeps status, restock time and `is_active` |
| ProductForm.CreatedRow | src/components/ProductForm.tsx:65-75 | a created product has the trimmed name, the category column, both counts, is `stocked` and active, and its timer starts now |
| ProductForm.UnchangedEditKeepsProduct | src/components/ProductForm.tsx:33-59 | saving an edit form left as it was opened changes only `updated_at` |
| ProductForm.Submit | src/components/ProductForm.tsx:43-80 | writes exactly when the trimmed name is non-empty; an edit updates the product being edited, a create appends the created row |
| RemindersPage.LoadTasks | src/app/reminders/page.tsx:52-58 | the household's tasks ascending by due date, as a permutation of them |
| RemindersPage.Upcoming | src/app/reminders/page.tsx:143 | exactly the tasks not done, as a subsequence of the loaded tasks (so in the loaded order, and by due date when the load is) |
| RemindersPage.Done | src/app/reminders/page.tsx:144 | exactly the tasks done, as a subsequence of the loaded tasks (so in the loaded order, and by due date when the load is) |
| RemindersPage.UpcomingDonePartition | src/app/reminders/page.tsx:143-144 | the two lists are disjoint and together hold each task once |
| RemindersPage.IsOverdue | src/app/reminders/page.tsx:142-148 | overdue exactly when the due date is before the start of today (UTC) |
| RemindersPage.OverdueIgnoresTimeOfDay | src/app/reminders/page.tsx:146-148 | only the due date's day matters, not its time of day |
| RemindersPage.DueTodayIsNotOverdue | src/app/reminders/page.tsx:142-148 | a task due at the start of today is due for the scan but not shown as overdue |
| RemindersPage.TogglePatch | src/app/reminders/page.tsx:119-133 | a pending task with a non-zero period moves on by that many days and stays pending; any other toggle flips `is_done` and changes nothing else |
| RemindersPage.ToggleTwiceRestores | src/app/reminders/page.tsx:128-132 | a non-repeating task is back where it was after two toggles |
| RemindersPage.RepeatingTaskAdvances | src/app/reminders/page.tsx:120-127 | a pending task with a positive period stays pending and gets a later due date |
| RemindersPage.OpenForm | src/app/reminders/page.tsx:66-81 | a new task starts from an empty form; an edit starts from the task's title and due day |
| RemindersPage.FormFields | src/app/reminders/page.tsx:88-99 | nothing is written without a trimmed title or a date; the title and description are trimmed, a blank description and an empty period become null, and the date becomes midnight of that day |
| RemindersPage.OpenThenSaveKeepsTask | src/app/reminders/page.tsx:66-99 | a task as the form writes it opens into a form that saves the same columns again |
| RemindersPage.EditPatch | src/app/reminders/page.tsx:94-105 | an edit sets the four form columns and keeps `is_done` |
| RemindersPage.NewTask | src/app/reminders/page.tsx:107-111 | a created task is in the household, not done, with the form's columns |
| RemindersPage.Submit | src/app/reminders/page.tsx:88-117 | writes exactly when the form is valid; an edit updates the task being edited, a create appends the new task |
| RemindersPage.ToggleDone | src/app/reminders/page.tsx:119-135 | the task with that id gets `TogglePatch`, decided on the page's copy; nothing else changes |
| RemindersPage.DeleteTask | src/app/reminders/page.tsx:137-140 | the task with that id is removed for good and the others keep their order |
| CheckReminders.ChatIdOf | src/app/api/check-reminders/route.ts:46-48 | the chat of the first household with that id when it is set and non-empty, and none otherwise; never a chat for an unknown household |
| CheckReminders.SkipKeepsGrouped | src/app/api/check-reminders/route.ts:48 | a row of a household without a chat keeps the grouping as it was |
| CheckReminders.OpenKeepsGrouped | src/app/api/check-reminders/route.ts:50-55 | the first row of a household opens its bucket, and the grouping promise holds |
| CheckReminders.JoinKeepsGrouped | src/app/api/check-reminders/route.ts:56 | a later row joins its household's bucket, and the grouping promise holds |
| CheckReminders.AddKeepsGrouped | src/app/api/check-reminders/route.ts:44-57 | each turn of the grouping loop keeps the promise: distinct households, no empty bucket, each bucket linked to its household's chat and holding exactly that household's rows in scan order, and every row of a household with a chat in a bucket |
| CheckReminders.GroupIsGrouped | src/app/api/check-reminders/route.ts:44-57 | the whole grouping keeps that promise |
| CheckReminders.GroupByHousehold | src/app/api/check-reminders/route.ts:39-57 | the loop over the due rows computes the grouping |
| CheckReminders.GroupPlacesEveryRow | src/app/api/check-reminders/route.ts:44-57 | a row is in some bucket exactly when its household has a chat, and then only in its own household's bucket |
| CheckReminders.GroupedHouseholds | src/app/api/check-reminders/route.ts:44-57 | any grouping that keeps the promise has a bucket for a household exactly when that household has a chat and one of the scanned rows |
| CheckReminders.GroupHouseholds | src/app/api/check-reminders/route.ts:44-57 | the grouping loop opens buckets for distinct households, one exactly for each household that has a chat and among the scanned rows is one of its own |
| CheckReminders.GroupItemsDistinct | src/app/api/check-reminders/route.ts:44-57 | rows with distinct ids land in buckets with distinct ids: each row goes to one bucket, once |
| CheckReminders.ProductBucketsDistinct | src/app/api/check-reminders/route.ts:23-57 | the scan's buckets have distinct product ids when the store does |
| CheckReminders.ProductBucketsPerHousehold | src/app/api/check-reminders/route.ts:23-57 | the product buckets are for distinct households, and a household has one exactly when it has a chat and a due (stocked, reminder time come) product |
| CheckReminders.TaskBucketsPerHousehold | src/app/api/check-reminders/route.ts:102-119 | the task buckets are for distinct households, and a household has one exactly when it has a chat and a due (due date come, not done) task |
| CheckReminders.DueProducts | src/app/api/check-reminders/route.ts:23-27 | a view row is due exactly when it is `stocked` and its reminder time has come |
| CheckReminders.DueTasks | src/app/api/check-reminders/route.ts:102-106 | a task is due exactly when its due date has come and it is not done |
| CheckReminders.DayWord | src/app/api/check-reminders/route.ts:66 | "dag" exactly for one day left, "dagen" otherwise |
| CheckReminders.DayWordTail | src/app/api/check-reminders/route.ts:66 | a product line's closing is " dag)" exactly for one day left |
| CheckReminders.ProductLine | src/app/api/check-reminders/route.ts:64-67 | a product's line starts with its name in bold, ends with its days left in decimal and the word for them, ends in " dag)" exactly for one day, and is a single line when the name is |
| CheckReminders.ProductLines | src/app/api/check-reminders/route.ts:64-67 | one line per product, in bucket order, all single lines when no name holds a line break |
| CheckReminders.ProductMessage | src/app/api/check-reminders/route.ts:69-76 | when no product name holds a line break, the message's lines are exactly the header, one line per product in bucket order, and the footer |
| CheckReminders.TaskLine | src/app/api/check-reminders/route.ts:123 | a task's line starts with its title in bold; the bracketed description follows exactly when the description is set and non-empty |
| CheckReminders.TaskLines | src/app/api/check-reminders/route.ts:123 | one line per task, in bucket order, all single lines when no title or description holds a line break |
| CheckReminders.TaskMessage | src/app/api/check-reminders/route.ts:124 | when no title or description holds a line break, the message's lines are exactly the header and one line per task in bucket order |
| CheckReminders.LogRows | src/app/api/check-reminders/route.ts:91-96 | one log row per product of the bucket, in bucket order, each carrying the message |
| CheckReminders.DeliveredCount | src/app/api/check-reminders/route.ts:78-81 | the count of delivered messages: never above the number of messages, equal to it exactly when every message was delivered, zero exactly when none was |
| CheckReminders.DeliveredCountCounts | src/app/api/check-reminders/route.ts:78-81 | the count is the number of buckets among the first `n` whose message was delivered |
| CheckReminders.DeliveredIdsMembers | src/app/api/check-reminders/route.ts:84-88 | the ids set to `reminded` are exactly those of the products in delivered buckets |
| CheckReminders.ProductOutbox | src/app/api/check-reminders/route.ts:61-78 | one message per product bucket, in bucket order, to the bucket's chat |
| CheckReminders.TaskOutbox | src/app/api/check-reminders/route.ts:122-125 | one message per task bucket, in bucket order, to the bucket's chat |
| CheckReminders.RemindedPatch | src/app/api/check-reminders/route.ts:87 | status becomes `reminded`, and only `updated_at` changes besides |
| CheckReminders.RemindedIffDelivered | src/app/api/check-reminders/route.ts:78-97 | a product in a bucket becomes `reminded` exactly when its own household's message was delivered |
| CheckReminders.DispatchLogIds | src/app/api/check-reminders/route.ts:90-96 | a product has a log row exactly when it was set to `reminded` |
| CheckReminders.InLogAppend | src/app/api/check-reminders/route.ts:91-96 | a product is in a log followed by more rows exactly when it is in either part |
| CheckReminders.InLogRows | src/app/api/check-reminders/route.ts:91-96 | a bucket's log rows name exactly the bucket's products |
| CheckReminders.DistinctAppend | src/app/api/check-reminders/route.ts:91-96 | a log made of two parts with distinct, non-overlapping product ids has distinct product ids |
| CheckReminders.LogRowsDistinct | src/app/api/check-reminders/route.ts:91-96 | a bucket's log rows have distinct product ids |
| CheckReminders.EarlierLogAvoidsBucket | src/app/api/check-reminders/route.ts:61-98 | rows logged by earlier turns name none of a later bucket's products |
| CheckReminders.DispatchLogDistinct | src/app/api/check-reminders/route.ts:90-96 | no product is logged twice |
| CheckReminders.OneLogRowPerDeliveredProduct | src/app/api/check-reminders/route.ts:78-97 | each delivered product gets exactly one log row, and no product that was not delivered gets one |
| CheckReminders.PatchedRowsAreReminded | src/app/api/check-reminders/route.ts:85-88 | after the update every selected product is `reminded` |
| CheckReminders.RemindedRowsAreNotDue | src/app/api/check-reminders/route.ts:23-27 | `reminded` products are not due |
| CheckReminders.RemindedProductsAreNotDueAgain | src/app/api/check-reminders/route.ts:22-27 | a product reminded by one scan is not due in any later scan until it changes status again |
| CheckReminders.LogReminders | src/app/api/check-reminders/route.ts:91-96 | the log gets the bucket's rows at its end; nothing else changes |
| CheckReminders.MarkReminded | src/app/api/check-reminders/route.ts:80-97 | the bucket's products become `reminded` and are logged; nothing else changes |
| CheckReminders.SendBucket | src/app/api/check-reminders/route.ts:78-97 | success is the send's answer; only on success are the bucket's products set to `reminded` and logged, and on failure neither changes |
| CheckReminders.DispatchTurn | src/app/api/check-reminders/route.ts:61-98 | turn i takes the count, the outbox, the products and the log from what the first i turns leave to what the first i + 1 leave |
| CheckReminders.TurnAdvance | src/app/api/check-reminders/route.ts:61-98 | the same step, stated on values |
| CheckReminders.OutboxAdvance | src/app/api/check-reminders/route.ts:61-78 | one more turn adds its bucket's message to the end of the outbox |
| CheckReminders.ProductsAdvance | src/app/api/check-reminders/route.ts:80-88 | one more delivered bucket adds its products to those set to `reminded` |
| CheckReminders.LogAdvance | src/app/api/check-reminders/route.ts:90-96 | one more delivered bucket adds its rows to the log |
| CheckReminders.DispatchProducts | src/app/api/check-reminders/route.ts:59-98 | the loop sends each bucket's message in order; it counts the delivered ones and sets to `reminded` and logs exactly their products |
| CheckReminders.NotifyTasks | src/app/api/check-reminders/route.ts:122-127 | each task bucket gets its message and counts as sent, whatever the send answers |
| CheckReminders.RemindTasks | src/app/api/check-reminders/route.ts:100-128 | the task part sends and counts one message per bucket of the task grouping (by `TaskBucketsPerHousehold`, one per household with a chat and a due task), sending that household's task message, and changes no task |
| CheckReminders.ScanDue | src/app/api/check-reminders/route.ts:38-135 | the summary: sent = delivered product buckets (one per household with a chat and a due product, by `ProductBucketsPerHousehold`) plus task buckets, then the numbers of due products and of due tasks; products are set to `reminded` exactly for the delivered buckets and the log gains their rows; tasks untouched |
| CheckReminders.Run | src/app/api/check-reminders/route.ts:13-136 | a wrong secret is refused with no send and no write; without due products nothing is sent or written and tasks are not looked at; otherwise the scan as `ScanDue` states it |

## Left out

- The view `products_with_timing`, which is not part of this model:
  - Its timing columns come from the parameter `timing`.
  - Its rows are taken to be the active products. The home page loads only
    from it and expects removed products to disappear.
  - It returns rows in store order before any `order`.
- Query results come back in store order.
  - `/gekocht` takes the first matching product in store order.
  - Ties in an `order` on days remaining or due date keep store order,
    because the sort is stable (`Seqs.SortByStable`). The store's own order for those is not
    specified.
- Supabase errors are left out, including the 500 reply when the due-product
  query fails (src/app/api/check-reminders/route.ts:29-32). Every query
  and write is taken to succeed.
- `src/lib/telegram.ts` is not part of this model. It is replaced by the
  send oracle, and the scan's `outbox` records what was sent. The webhook's
  replies are values (`Webhook.Reply`), so their wording and HTML markup are
  not modelled.
- The scan's response carries the counts but not its `message` text. The
  "No reminders due" response is `NoneDue`, whose `sent` is 0.
- Time:
  - Each request reads the clock once, as `now`.
  - Dates are UTC instants in milliseconds.
  - `setDate` moving by local calendar days, with daylight-saving shifts, is
    taken as `repeat_days` times `MsPerDay`.
  - The `YYYY-MM-DD` comparison of `isOverdue` is taken as a comparison of
    UTC day numbers.
- Numbers:
  - A numeric token is a non-empty string of ASCII digits. JavaScript
    `Number`/`parseInt` also accept signs, decimals, hex and exponents, and
    those are not modelled.
  - Form number inputs are integers.
- Text:
  - Whitespace for `trim` and `\s` is ASCII whitespace only.
  - `ilike` is taken as a plain substring match, ignoring ASCII case, with
    no `%` or `_` wildcards.
- The insert default of `is_recurring` comes from the schema, which is not
  part of this model. It is the constant `Store.DefaultIsRecurring` (true).
- The tasks page's household id is a plain parameter. The page's null
  household id before the membership loads is not modelled.
- React state, rendering, styling, loading flags and `onSaved`/`onUpdate`
  reloads are left out. So are login and membership lookup, registration,
  settings, the navigation bar and the layout.
- Concurrency between entry points, last-write-wins, and cron scheduling are
  left out.
- The ordering of buckets is left out. `Object.entries` visits households in
  insertion order for these string keys. The model keeps its buckets in the
  order their households first appear, and the lemmas do not depend on that
  order.
- CheckReminders.DeliveredIds, CheckReminders.DispatchLog: their properties
  (`DeliveredIdsMembers`, `DispatchLogIds`, `DispatchLogDistinct`) hold for
  any message renderer, not only for the scan's `ProductMessage`.
- CheckReminders.ProductMessage, CheckReminders.TaskMessage: their lines are
  stated only when no product name, task title or description holds a line
  break. A line break inside one splits that line, and the message's lines
  are then not stated.
