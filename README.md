# Admin dashboard model

A Dafny model of the back-office dashboard of a task and reward platform: the pages an
operator uses to look after members, deposits and withdrawals, the product catalogue,
combination tasks, KYC requests, promo codes, wallets, agents and the system's task switch,
together with the session gate that wraps the whole panel and the login form in front of it.

Every page in the dashboard follows the same pattern: it fetches a list from the REST API,
filters it by the operator's search fields, sorts and pages it, and applies row actions that
are confirmed first and then sent to the server, with a toast that reports the answer. The
model keeps that structure page by page.

- Pages whose state the component updates step by step are classes (`KycPage`,
  `MemberRow`, `AgentPage`, `Session`, ...). Each handler is a method whose `modifies`
  names the state fields it sets, and whose `ensures` give the whole new state.
- What a page derives from its state (the filtered list, the shown page, the totals, the
  toast text) is a function. Its contract, and the lemmas beside it, say what the result
  means: which records are listed, in what order, what page numbers are offered.
- Every request is a parameter of the handler: `Effects.Reply` is `Answered(ok)` when the
  server answered (fetch resolves on HTTP errors, so `res.ok` decides) and `Raised` when
  the request threw. A handler that sends a body returns it (`sent`), except the
  product add and edit named under "## Left out".
- Shared library behaviour lives in small modules: `Collections` (filter, find, map,
  reverse, a stable sort, toggling an id in a selection), `Text` (case mapping,
  case-insensitive search, trimming, `parseInt` in base 10 and without a radix, two-digit padding), `Numbers` (`parseFloat`
  and `Number` over decimal text), `Clock` (millisecond timestamps, date-range bounds, day
  starts and ends, the UTC clock string), `Paging` (page counts, slices, serial numbers,
  previous and next) and `UniqueCode` (the product code generator).

## Behaviour kept as written

The model follows the code where it does something a reader might not expect:

- MembershipList: a delete removes the member from the filtered list only; the full list
  keeps it until the next fetch.
- Member: the local balance update always adds the amount, even for a deduction.
- Member: a refresh does not update `trainingBal` or `resetCount`.
- Member: a VIP change sends `totalBal` unchanged.
- Member: an extension total that is NaN passes the range check, but building the date
  throws, so nothing is sent.
- Member: a task reset sends the fetched `resetCount + 1`.
- Member: one second past its end, the countdown shows "-1 : -1 : -1".
- Member: the account toggles flip on any answer, not only on an ok one.
- WithdrawRecord: rows are loaded as "approved" or "rejected" but updated to "approve" or
  "cancel", and the button and action checks each test one pair only. A row just decided
  keeps an enabled button but never shows its actions again; a row loaded as decided is
  disabled.
- AdminList: the list hides the role spelled "superAdmin", while the session gate renames
  the role spelled "superadmin".
- AdminList: a failed delete keeps the pending id.
- AdminList: a submit with no role chosen leaves the submitting flag as it was.
- AdminList: an empty id is treated as no id.
- Kyc: Cancel closes the dialog but keeps the request in it.
- SystemSettings: for someone who is not an admin, the spinner never stops.
- FillReport: on page 4 the pager shows 1 and then 3; page 2 is left out with no ellipsis
  in its place.
- CombinationTask: ticking or unticking a task's Select checkbox refilters the list without sorting it.
- CombinationTask: with the minimum price at its default 0, a product with a negative price
  is hidden.
- CombinationTask: a task without a title never matches a title search.
- TaskRecord and TaskReport: resetting the filters keeps the current page.
- DepositAgent: an empty id counts as no id.
- Login: only the first user with the typed phone has its password compared.
- Login: the page's only swap button ("Login with Email") asks for the email form, and
  nothing asks for the mobile one, so the phone login (Login.jsx:74-105) cannot be reached
  from the page as written. `Login.LoginPage.Swap` and `Login.PhoneLogin` model it as
  written; `Login.LoginPage.EmailButton` is the button. The `phone` field starts undefined
  and is modelled as "".
- RewardTaskList: the target-number search box is commented out, so the search is by
  username alone.

## Model

| member | source | states |
|---|---|---|
| ProductManagement.Loaded | src/Pages/ProductManagement/ProductManagement.jsx:298-327 | the cache built from a fetch has one row per fetched product: row i is the i-th product of the newest-first order, numbered i + 1, with missing numbers read as 0 |
| ProductManagement.LoadedRows | src/Pages/ProductManagement/ProductManagement.jsx:298-327 | loaded row i is the i-th product of the newest-first order, numbered i + 1; that order is sorted newest first with an unreadable creation time tying with every other, and is a permutation of the fetched products |
| ProductManagement.VisibleMembers | src/Pages/ProductManagement/ProductManagement.jsx:576-584 | a product is listed exactly when it is cached and every filled-in filter (id substring, title ignoring case, minimum, maximum price) matches it |
| ProductManagement.VisibleOrder | src/Pages/ProductManagement/ProductManagement.jsx:585-589 | "price-asc" lists prices nondecreasing, "price-desc" nonincreasing, and any other sort keeps the filtered order |
| ProductManagement.NoFiltersListAll | src/Pages/ProductManagement/ProductManagement.jsx:576-589 | with every filter empty the whole cache is listed in cache order |
| ProductManagement.UnreadableBoundHidesAll | src/Pages/ProductManagement/ProductManagement.jsx:581-582 | a minimum or maximum price that parses to NaN hides every product, since a comparison with NaN is false |
| ProductManagement.TotalPages | src/Pages/ProductManagement/ProductManagement.jsx:591 | there is always at least one page: one for an empty list, otherwise the least number of pages of that size that holds every listed product |
| ProductManagement.VisiblePages | src/Pages/ProductManagement/ProductManagement.jsx:592 | a page holds at most `size` listed products, the ones after the earlier pages, and the pages together are the list |
| ProductManagement.WindowShape | src/Pages/ProductManagement/ProductManagement.jsx:612-614 | the page-number window is min(5, total) consecutive pages inside 1..total that contains the current page |
| ProductManagement.RenderPagination | src/Pages/ProductManagement/ProductManagement.jsx:609-622 | the loop pushes exactly the page numbers from the window's start to its end, in order |
| ProductManagement.GoToPage | src/Pages/ProductManagement/ProductManagement.jsx:650-655 | the go-to box always lands inside 1..total; 0, NaN or a number below 1 goes to page 1, a number at or above the total goes to the last page, and an in-range number goes to that page |
| ProductManagement.SelectAll | src/Pages/ProductManagement/ProductManagement.jsx:594-598 | the header check box clears the selection when every row of the page is selected and selects exactly the page otherwise |
| ProductManagement.SelectAllFlips | src/Pages/ProductManagement/ProductManagement.jsx:594-598 | on a non-empty page the header check box flips between all ticked and not all ticked |
| ProductManagement.AddCheckPasses | src/Pages/ProductManagement/ProductManagement.jsx:393-401 | an add goes past the checks exactly when the title has a non-space character, the price parses and an image is chosen |
| ProductManagement.MaxId | src/Pages/ProductManagement/ProductManagement.jsx:445 | the largest row number of a non-empty cache: no cached number is above it, and some cached row has it |
| ProductManagement.NextId | src/Pages/ProductManagement/ProductManagement.jsx:445 | the new row number is the largest cached number plus one, so above every cached one, and 1 for an empty cache |
| ProductManagement.NextIdFollowsLargest | src/Pages/ProductManagement/ProductManagement.jsx:445 | rows 1 and 5 give 6, and a cache holding only row -3 gives -2 |
| ProductManagement.SecondReviewLost | src/Pages/ProductManagement/ProductManagement.jsx:415-434 | as written, the item built for a new product has no second review description, whatever was typed, and differs from the intended item in that field only |
| ProductManagement.NewItemKeepsForm | src/Pages/ProductManagement/ProductManagement.jsx:415-434 | the new item keeps the typed title, the parsed price, both review descriptions, the uploaded cover and the fresh code |
| ProductManagement.Prepended | src/Pages/ProductManagement/ProductManagement.jsx:444-450 | an add puts the new product, with every field it was built with and the saved server key, in front of the unchanged cache, numbered the largest cached number plus one, which no cached row has |
| ProductManagement.PrependedKeepsIdsDistinct | src/Pages/ProductManagement/ProductManagement.jsx:444-450 | row numbers that are distinct stay distinct after an add |
| ProductManagement.LoadedIdsDistinct | src/Pages/ProductManagement/ProductManagement.jsx:304-305 | a fresh load gives every row its own number |
| ProductManagement.FilterKeepsIdsDistinct | src/Pages/ProductManagement/ProductManagement.jsx:553 | removing rows keeps the remaining row numbers distinct |
| ProductManagement.DeletedKeepsIdsDistinct | src/Pages/ProductManagement/ProductManagement.jsx:553 | a delete keeps the row numbers distinct |
| ProductManagement.EditedKeepsIdsDistinct | src/Pages/ProductManagement/ProductManagement.jsx:525-531 | an edit keeps every row number, so they stay distinct |
| ProductManagement.Merged | src/Pages/ProductManagement/ProductManagement.jsx:500-526 | an edited row takes the form's title, parsed price, description texts and reaction counts (`Number` of the text) and the cover, and keeps its number, server key and code |
| ProductManagement.EditFormOf | src/Pages/ProductManagement/ProductManagement.jsx:471-477 | the edit form keeps the product's number, server key and cover, its title, and the given texts of its price and reaction counts |
| ProductManagement.UnchangedEditKeepsRow | src/Pages/ProductManagement/ProductManagement.jsx:471-531 | saving an untouched edit form whose number texts read back as the product's numbers gives back the same row |
| ProductManagement.Edited | src/Pages/ProductManagement/ProductManagement.jsx:522-528 | an edit changes only the rows with that number, each into the merged row, and keeps the length |
| ProductManagement.Deleted | src/Pages/ProductManagement/ProductManagement.jsx:551 | a delete keeps exactly the cached rows with another number |
| ProductManagement.DeleteAbsent | src/Pages/ProductManagement/ProductManagement.jsx:551 | deleting a number no row has changes nothing |
| ProductManagement.EditThenDelete | src/Pages/ProductManagement/ProductManagement.jsx:522-528 | editing a row and then deleting it leaves what deleting it alone leaves |
| ProductManagement.ProductPage.constructor | src/Pages/ProductManagement/ProductManagement.jsx:256-285 | the initial state: empty cache and selection, no filters, page 1 of 25 rows, empty form, dialogs closed |
| ProductManagement.ProductPage.Load | src/Pages/ProductManagement/ProductManagement.jsx:293-333 | a fetch replaces the cache by the loaded rows; a failure keeps it and shows the load error; nothing else changes, and the row numbers stay distinct |
| ProductManagement.ProductPage.AddProduct | src/Pages/ProductManagement/ProductManagement.jsx:392-470 | a failed check shows its alert and keeps the dialog; otherwise the add runs its request chain; a product it adds goes in front of the unchanged cache without its second review description |
| ProductManagement.ProductPage.Submit | src/Pages/ProductManagement/ProductManagement.jsx:403-467 | after the checks: a failed upload, code fetch or POST shows the add error and keeps the cache and dialog; draws that run out change nothing; otherwise the item as the handler builds it, with the first unused code, goes in front and the dialog resets |
| ProductManagement.ProductPage.Commit | src/Pages/ProductManagement/ProductManagement.jsx:444-460 | a saved product goes in front of the cache, the success alert shows, the form and image are cleared, the dialog closes, and the row numbers stay distinct |
| ProductManagement.ProductPage.SubmitEdit | src/Pages/ProductManagement/ProductManagement.jsx:483-545 | a failed check or a failed upload or PATCH keeps the cache and shows the error; otherwise that row is merged with the form and the dialog closes |
| ProductManagement.ProductPage.StartEdit | src/Pages/ProductManagement/ProductManagement.jsx:471-480 | the edit form is filled from the product, the edit dialog opens and no image is chosen |
| ProductManagement.ProductPage.EditEditForm | src/Pages/ProductManagement/ProductManagement.jsx:184-186 | typing in the edit dialog changes the edited fields, keeping the number, server key and cover |
| ProductManagement.ProductPage.ExecuteDelete | src/Pages/ProductManagement/ProductManagement.jsx:547-559 | any answer removes the row and announces it; only a rejected request keeps it and shows the delete error |
| ProductManagement.ProductPage.ToggleSelect | src/Pages/ProductManagement/ProductManagement.jsx:600-602 | a row check box removes the id when selected and appends it otherwise |
| ProductManagement.ProductPage.ToggleSelectAll | src/Pages/ProductManagement/ProductManagement.jsx:594-598 | the header check box acts on the ids of the rows of the current page |
| ProductManagement.ProductPage.ResetFilters | src/Pages/ProductManagement/ProductManagement.jsx:604-607 | reset empties every filter and goes back to page 1 |
| ProductManagement.ProductPage.EditFilters | src/Pages/ProductManagement/ProductManagement.jsx:677-685 | typing in a filter input or choosing a sort sets the filters and nothing else |
| ProductManagement.ProductPage.OpenAdd | src/Pages/ProductManagement/ProductManagement.jsx:699 | "Add New Product" opens the add dialog |
| ProductManagement.ProductPage.CloseAdd | src/Pages/ProductManagement/ProductManagement.jsx:116 | closing the add dialog keeps the typed form |
| ProductManagement.ProductPage.EditForm | src/Pages/ProductManagement/ProductManagement.jsx:111-113 | typing in the add dialog sets the form and nothing else |
| ProductManagement.ProductPage.ChooseImage | src/Pages/ProductManagement/ProductManagement.jsx:140 | the file input sets whether a cover image is chosen |
| ProductManagement.ProductPage.SetItemsPerPage | src/Pages/ProductManagement/ProductManagement.jsx:628-629 | choosing one of the five page sizes sets it and goes back to page 1 |
| ProductManagement.ProductPage.First | src/Pages/ProductManagement/ProductManagement.jsx:634 | `<<` goes to page 1 |
| ProductManagement.ProductPage.Prev | src/Pages/ProductManagement/ProductManagement.jsx:635 | `<` goes back one page, not below 1 |
| ProductManagement.ProductPage.Next | src/Pages/ProductManagement/ProductManagement.jsx:639 | `>` goes on one page, not past the last |
| ProductManagement.ProductPage.Last | src/Pages/ProductManagement/ProductManagement.jsx:640 | `>>` goes to the last page |
| ProductManagement.ProductPage.GoTo | src/Pages/ProductManagement/ProductManagement.jsx:650-655 | the go-to box sets the clamped page, which is inside 1..total |
| MembershipList.SearchMembers | src/Pages/MembershipList/MembershipList.jsx:205-224 | a member is found exactly when it is loaded and matches every filled-in criterion, and the result is a sub-multiset of the list |
| MembershipList.SearchKeepsOrder | src/Pages/MembershipList/MembershipList.jsx:206 | the search distributes over concatenation, so found members keep their list order |
| MembershipList.SearchIgnoresIp | src/Pages/MembershipList/MembershipList.jsx:211-223 | the IP address input has no effect on the search |
| MembershipList.EmptyCriteriaFindAll | src/Pages/MembershipList/MembershipList.jsx:211-223 | with every criterion empty the search finds the whole list in order |
| MembershipList.StatusIsFrozenFlag | src/Pages/MembershipList/MembershipList.jsx:217-219 | "Normal" matches exactly the members whose frozen flag is false, "Prohibited" exactly those whose flag is true |
| MembershipList.PageNumbers | src/Pages/MembershipList/MembershipList.jsx:348-349 | the listed page numbers are increasing, inside 1..total, and exactly page 1, the last page and the pages within two of the current one |
| MembershipList.StartsWithOne | src/Pages/MembershipList/MembershipList.jsx:348-349 | an increasing list of pages that holds page 1 starts with it |
| MembershipList.FirstPageTwice | src/Pages/MembershipList/MembershipList.jsx:341-358 | as written, past page 3 the pager shows page 1 twice (the extra button and the list's own), so its numbers are not increasing |
| MembershipList.LastPageTwice | src/Pages/MembershipList/MembershipList.jsx:341-365 | as written, below page total - 2 the pager ends with the last page twice (the list's own and the extra button) |
| MembershipList.PageFourOfFour | src/Pages/MembershipList/MembershipList.jsx:341-358 | as written, page 4 of 4 renders "1 ... 1 2 3 4" |
| MembershipList.AsWrittenNumbers | src/Pages/MembershipList/MembershipList.jsx:341-365 | the numbers of the pager as written are the extra 1 past page 3, every kept page, and the extra last page below total - 2 |
| MembershipList.Window | src/Pages/MembershipList/MembershipList.jsx:348-349 | the pages within two of the current one that exist, increasing |
| MembershipList.LeadNumbers | src/Pages/MembershipList/MembershipList.jsx:341-346 | the leading extra button is page 1 exactly when the current page is past 3 |
| MembershipList.TrailNumbers | src/Pages/MembershipList/MembershipList.jsx:360-365 | the trailing extra button is the last page exactly when the current page is below total - 2 |
| MembershipList.ButtonsNumbers | src/Pages/MembershipList/MembershipList.jsx:341-365 | the corrected pager's numbers are the optional 1, the window and the optional last page |
| MembershipList.WindowBetween | src/Pages/MembershipList/MembershipList.jsx:341-365 | when the extra buttons show, the window lies strictly between page 1 and the last page |
| MembershipList.ButtonsIncreasing | src/Pages/MembershipList/MembershipList.jsx:341-365 | the corrected pager's page numbers are strictly increasing |
| MembershipList.ButtonsCover | src/Pages/MembershipList/MembershipList.jsx:341-365 | the corrected pager shows page 1, the last page and every existing page within two of the current one |
| MembershipList.ButtonsShowEachPageOnce | src/Pages/MembershipList/MembershipList.jsx:341-365 | the corrected pager shows each page at most once, in order, and covers the first, the last and the current page ±2 |
| MembershipList.ValidEmailShape | src/Pages/MembershipList/MembershipList.jsx:90 | an address the pattern accepts has exactly one `@` and no white space |
| MembershipList.EmailExamples | src/Pages/MembershipList/MembershipList.jsx:90 | the pattern accepts "a@b.c" and refuses "a@b" and "a@@b.c" |
| MembershipList.CheckForm | src/Pages/MembershipList/MembershipList.jsx:92-100 | the form passes exactly when all five fields are filled in and the email matches the pattern |
| MembershipList.Register | src/Pages/MembershipList/MembershipList.jsx:156-194 | a member is created only after the user list arrived and the POST answered ok, with a code no user has and the typed fields |
| MembershipList.RegisterChecks | src/Pages/MembershipList/MembershipList.jsx:159-180 | a taken email, then phone, then username is reported in that order, and the member is created exactly when none is taken and the POST is ok |
| MembershipList.AddMember | src/Pages/MembershipList/MembershipList.jsx:56-197 | a cancelled dialog does nothing, a failed check reports its message, otherwise registration runs on the trimmed fields; a created member has a valid email |
| MembershipList.MembershipPage.constructor | src/Pages/MembershipList/MembershipList.jsx:14-30 | the page starts empty, loading, with no criteria, on page 1 |
| MembershipList.MembershipPage.Load | src/Pages/MembershipList/MembershipList.jsx:32-46 | a fetch shows the members latest first and stops loading; a failure changes nothing |
| MembershipList.MembershipPage.Pager | src/Pages/MembershipList/MembershipList.jsx:341-365 | the pager the page draws is the one as written: its numbers are the extra 1, the kept pages and the extra last page, and past page 3 it shows page 1 twice |
| MembershipList.MembershipPage.Edit | src/Pages/MembershipList/MembershipList.jsx:200-203 | typing sets the criteria only |
| MembershipList.MembershipPage.Search | src/Pages/MembershipList/MembershipList.jsx:205-227 | the search result is shown from page 1 |
| MembershipList.MembershipPage.Reset | src/Pages/MembershipList/MembershipList.jsx:230-245 | reset empties the criteria, shows the whole list and goes to page 1 |
| MembershipList.MembershipPage.Delete | src/Pages/MembershipList/MembershipList.jsx:248-260 | an answered delete removes that id from the shown list only; a failed request keeps it |
| MembershipList.MembershipPage.GoTo | src/Pages/MembershipList/MembershipList.jsx:353 | a page button sets that page |
| MembershipList.DeleteOnlyThatId | src/Pages/MembershipList/MembershipList.jsx:256 | the delete keeps exactly the shown members with another id |
| DepositRecord.SortedNewestFirst | src/Pages/DepositRecord/DepositRecord.jsx:21-23 | the loaded deposits are a permutation of the fetched ones, and of two neighbours with readable times the newer comes first |
| DepositRecord.SearchFinds | src/Pages/DepositRecord/DepositRecord.jsx:38-59 | a deposit is found exactly when it is loaded, its username contains the trimmed name ignoring case, its status equals the trimmed status ignoring case, and its time is inside the date bounds |
| DepositRecord.SearchKeepsOrder | src/Pages/DepositRecord/DepositRecord.jsx:44 | the search distributes over concatenation, so found deposits keep their order |
| DepositRecord.SearchIgnoresCase | src/Pages/DepositRecord/DepositRecord.jsx:39-40 | lowercasing the name or status typed changes nothing |
| DepositRecord.BlankSearchFindsAll | src/Pages/DepositRecord/DepositRecord.jsx:39-58 | blank (white-space only) name and status with no dates find every deposit in order |
| DepositRecord.FormatDate | src/Pages/DepositRecord/DepositRecord.jsx:77-82 | a valid local date and time is printed as 19 characters "YYYY-MM-DD hh:mm:ss" that read back as the same date and time |
| DepositRecord.WindowShape | src/Pages/DepositRecord/DepositRecord.jsx:202-213 | the listed pages are increasing inside 1..total, all of them when total <= 7 and at most six otherwise, and include the first, the last and the current page |
| DepositRecord.WindowLength | src/Pages/DepositRecord/DepositRecord.jsx:204-212 | past seven pages the window lists at most six pages |
| DepositRecord.EarlyWindowLength | src/Pages/DepositRecord/DepositRecord.jsx:205 | near the start the window is pages 1..5 and the last, at most six pages |
| DepositRecord.LateWindowLength | src/Pages/DepositRecord/DepositRecord.jsx:206-207 | near the end the window is page 1 and the last five, at most six pages |
| DepositRecord.MiddleWindowLength | src/Pages/DepositRecord/DepositRecord.jsx:208-212 | in the middle the window is the first, the last and the current page ±1, at most five pages |
| DepositRecord.WithDotsSplit | src/Pages/DepositRecord/DepositRecord.jsx:214-233 | the rendered buttons of a list are those of all but its last page, a gap marker if needed, and the last page |
| DepositRecord.DotsKeepPages | src/Pages/DepositRecord/DepositRecord.jsx:214-233 | inserting the dots keeps the listed page numbers and their order |
| DepositRecord.DotsOnlyAtGaps | src/Pages/DepositRecord/DepositRecord.jsx:215-216 | dots appear only between two page buttons whose numbers differ by more than one |
| DepositRecord.NoDotsNoGap | src/Pages/DepositRecord/DepositRecord.jsx:215-216 | two adjacent page buttons with no dots between differ by at most one |
| DepositRecord.DotsMarkGaps | src/Pages/DepositRecord/DepositRecord.jsx:214-233 | the dots mark exactly the gaps of the page list: the pages are kept, and dots stand where and only where numbers jump |
| DepositRecord.DepositPage.constructor | src/Pages/DepositRecord/DepositRecord.jsx:4-14 | the page starts empty, loading, with no search, on page 1 |
| DepositRecord.DepositPage.Load | src/Pages/DepositRecord/DepositRecord.jsx:17-29 | a fetch shows every deposit newest first; a failure keeps the lists; loading ends either way |
| DepositRecord.DepositPage.Edit | src/Pages/DepositRecord/DepositRecord.jsx:32-35 | typing sets the search inputs only |
| DepositRecord.DepositPage.DoSearch | src/Pages/DepositRecord/DepositRecord.jsx:38-63 | Search shows the search result from page 1 |
| DepositRecord.DepositPage.Reset | src/Pages/DepositRecord/DepositRecord.jsx:66-75 | reset empties the inputs, shows every deposit and goes to page 1 |
| DepositRecord.DepositPage.Prev | src/Pages/DepositRecord/DepositRecord.jsx:195 | Prev goes back one page, not below 1 |
| DepositRecord.DepositPage.Next | src/Pages/DepositRecord/DepositRecord.jsx:236 | Next goes on one page, not past the last |
| DepositRecord.DepositPage.GoTo | src/Pages/DepositRecord/DepositRecord.jsx:222 | a page button sets that page |
| WithdrawRecord.HasComma | src/Pages/WithdrawRecord/WithdrawRecord.jsx:53 | a date written "date, time" takes the comma branch |
| WithdrawRecord.Halves | src/Pages/WithdrawRecord/WithdrawRecord.jsx:54 | splitting "date, time" on ", " gives exactly the two halves |
| WithdrawRecord.DateParts | src/Pages/WithdrawRecord/WithdrawRecord.jsx:55 | splitting "DD/MM/YYYY" on "/" gives day, month and year |
| WithdrawRecord.NoCommaInDate | src/Pages/WithdrawRecord/WithdrawRecord.jsx:54-55 | a date part built from comma-free fields holds no comma |
| WithdrawRecord.ParseDateStrRearranges | src/Pages/WithdrawRecord/WithdrawRecord.jsx:53-57 | "DD/MM/YYYY, time" is rearranged into "YYYY-MM-DDTtime" before it is read as a date |
| WithdrawRecord.ParseDateStrNull | src/Pages/WithdrawRecord/WithdrawRecord.jsx:50-60 | only an empty time gives null, and a time without a comma is read as it is |
| WithdrawRecord.Parsed | src/Pages/WithdrawRecord/WithdrawRecord.jsx:49-64 | the parsed submission time is null exactly for an empty string |
| WithdrawRecord.FormatDate | src/Pages/WithdrawRecord/WithdrawRecord.jsx:39-46 | an empty time shows "-"; a time already holding "/" is shown as it is; any other time shows its locale text, or "-" when it is not a readable date |
| WithdrawRecord.CustomFormatShownAsIs | src/Pages/WithdrawRecord/WithdrawRecord.jsx:39-42 | a time in the "DD/MM/YYYY, time" form that the records carry is shown as it is, whatever the locale would make of it |
| WithdrawRecord.Mapped | src/Pages/WithdrawRecord/WithdrawRecord.jsx:71-93 | every fetched withdrawal becomes one row |
| WithdrawRecord.MappedRows | src/Pages/WithdrawRecord/WithdrawRecord.jsx:71-93 | rows are numbered n down to 1, with distinct member ids, a fee of 5% of the amount, the status lowercased and an operator of "None" shown as "-" |
| WithdrawRecord.LoadedOrder | src/Pages/WithdrawRecord/WithdrawRecord.jsx:95 | the loaded rows are a permutation of the mapped ones, newest submission first |
| WithdrawRecord.SearchFinds | src/Pages/WithdrawRecord/WithdrawRecord.jsx:126-145 | a row is found exactly when it matches every filter; with a date bound only rows with a readable time are found, and a row inside both whole days that matches the rest is found |
| WithdrawRecord.SearchKeepsOrder | src/Pages/WithdrawRecord/WithdrawRecord.jsx:127 | the search distributes over concatenation, so found rows keep their order |
| WithdrawRecord.EmptyFiltersFindAll | src/Pages/WithdrawRecord/WithdrawRecord.jsx:138-144 | with every filter empty every row is found in order |
| WithdrawRecord.StatusRequestsShape | src/Pages/WithdrawRecord/WithdrawRecord.jsx:181-216 | hold and approve send one status PATCH for that row; cancel first refunds the amount to the balance, moving it out of the withdrawn total, then marks the row Rejected |
| WithdrawRecord.StatusMessage | src/Pages/WithdrawRecord/WithdrawRecord.jsx:219-232 | the success toast names the new status; any failure gives the error toast |
| WithdrawRecord.RefundWithoutRejection | src/Pages/WithdrawRecord/WithdrawRecord.jsx:205-215 | a cancel whose first request rejects has sent only the refund, never the Rejected status; hold completes on its one PATCH; a failed member fetch never completes |
| WithdrawRecord.SetStatus | src/Pages/WithdrawRecord/WithdrawRecord.jsx:219-228 | the status update keeps the number of rows |
| WithdrawRecord.SetStatusOnlyThatRow | src/Pages/WithdrawRecord/WithdrawRecord.jsx:219-228 | only the rows with that id change, and only in their status |
| WithdrawRecord.GatingNames | src/Pages/WithdrawRecord/WithdrawRecord.jsx:312-321 | a row just approved or cancelled keeps an enabled status button but never shows its actions again, since loaded and updated rows use different status names |
| WithdrawRecord.WithdrawPage.constructor | src/Pages/WithdrawRecord/WithdrawRecord.jsx:8-23 | the page starts empty with no filters, on page 1 of 25 rows, no dropdown open, no error and not loading |
| WithdrawRecord.WithdrawPage.Load | src/Pages/WithdrawRecord/WithdrawRecord.jsx:66-105 | a fetch shows the loaded rows; a failure keeps them and sets the load error; loading ends either way |
| WithdrawRecord.WithdrawPage.Edit | src/Pages/WithdrawRecord/WithdrawRecord.jsx:121-124 | typing sets the filters only |
| WithdrawRecord.WithdrawPage.Search | src/Pages/WithdrawRecord/WithdrawRecord.jsx:126-148 | Search shows the search result from page 1 |
| WithdrawRecord.WithdrawPage.Reset | src/Pages/WithdrawRecord/WithdrawRecord.jsx:150-160 | reset empties the filters, shows every row and goes to page 1 |
| WithdrawRecord.WithdrawPage.SetPageSize | src/Pages/WithdrawRecord/WithdrawRecord.jsx:162-168 | a positive whole number becomes the page size and goes to page 1; anything else changes nothing |
| WithdrawRecord.WithdrawPage.UpdateStatus | src/Pages/WithdrawRecord/WithdrawRecord.jsx:181-234 | nothing is sent when the member fetch fails; otherwise the status requests go out in order up to the first that rejects; when none rejects, that row's status changes in both lists, the dropdown closes and "Status updated to …" shows; otherwise nothing changes and "Error updating status." shows |
| WithdrawRecord.WithdrawPage.ToggleDropdown | src/Pages/WithdrawRecord/WithdrawRecord.jsx:307 | the status button opens that row's dropdown, or closes it when it is the open one |
| WithdrawRecord.WithdrawPage.Prev | src/Pages/WithdrawRecord/WithdrawRecord.jsx:350 | Prev goes back one page, not below 1 |
| WithdrawRecord.WithdrawPage.Next | src/Pages/WithdrawRecord/WithdrawRecord.jsx:354 | Next goes on one page, not past the last |
| WithdrawRecord.WithdrawPage.GoTo | src/Pages/WithdrawRecord/WithdrawRecord.jsx:352 | a page button sets that page |
| FillReport.CombinedDeposits | src/Pages/FillReport/FillReport.jsx:44-54 | every deposit row comes from a Success or Approved deposit that is not a balance deduction |
| FillReport.CombinedWithdraws | src/Pages/FillReport/FillReport.jsx:56-63 | every withdraw row comes from a Success or Approved withdrawal |
| FillReport.CombinedKeepsAll | src/Pages/FillReport/FillReport.jsx:44-65 | every deposit and withdrawal that passes its filter is in the combined list |
| FillReport.MergedRows | src/Pages/FillReport/FillReport.jsx:44-67 | the report holds exactly the kept deposits and withdrawals, as many rows as both filters keep, newest first |
| FillReport.SearchFinds | src/Pages/FillReport/FillReport.jsx:79-86 | a row is found exactly when it is loaded and matches every filled-in input; with a type chosen every found row has it |
| FillReport.KindsPartition | src/Pages/FillReport/FillReport.jsx:83 | with the other inputs fixed, the deposit-only and withdraw-only searches together find as many rows as "all" |
| FillReport.FilterSplit | src/Pages/FillReport/FillReport.jsx:80-86 | the filter behind the partition: the two type filters split the "all" filter |
| FillReport.EmptySearchFindsAll | src/Pages/FillReport/FillReport.jsx:81-85 | the reset inputs find every row in order |
| FillReport.Middle | src/Pages/FillReport/FillReport.jsx:207-208 | the middle buttons are the existing pages within one of the current one, increasing |
| FillReport.LeadNumbers | src/Pages/FillReport/FillReport.jsx:194-204 | the first-page button shows exactly when the page is past 3 |
| FillReport.TrailNumbers | src/Pages/FillReport/FillReport.jsx:220-230 | the last-page button shows exactly when the page is below total - 2 |
| FillReport.PagerNumbers | src/Pages/FillReport/FillReport.jsx:193-230 | the pager's numbers are the optional 1, the middle pages and the optional last page |
| FillReport.PagerShowsEachOnce | src/Pages/FillReport/FillReport.jsx:193-230 | the pager's numbers are increasing, so each page shows at most once, and are exactly the optional first, the optional last and the current page ±1 |
| FillReport.PagerIncreasing | src/Pages/FillReport/FillReport.jsx:193-230 | the pager's numbers are strictly increasing |
| FillReport.PagerMembers | src/Pages/FillReport/FillReport.jsx:193-230 | a page number shows exactly when it is the first page past page 3, the last page before total - 2, or within one of the current page |
| FillReport.IncreasingJoin | src/Pages/FillReport/FillReport.jsx:193-230 | three increasing runs, each below the next, join into an increasing run |
| FillReport.PageFourSkipsTwo | src/Pages/FillReport/FillReport.jsx:194-217 | on page 4 the pager reads 1, 3, ... with no button and no dots for page 2 |
| FillReport.ReportPage.constructor | src/Pages/FillReport/FillReport.jsx:9-21 | the page starts empty, loading, with the reset inputs, on page 1 |
| FillReport.ReportPage.Load | src/Pages/FillReport/FillReport.jsx:23-77 | an admin sees the merged report and loading ends; a failed fetch keeps the lists and ends loading; anyone else is sent away (`redirected`) and nothing loads |
| FillReport.ReportPage.Edit | src/Pages/FillReport/FillReport.jsx:110-141 | typing sets the inputs only |
| FillReport.ReportPage.Search | src/Pages/FillReport/FillReport.jsx:79-89 | Search shows the search result from page 1 |
| FillReport.ReportPage.Reset | src/Pages/FillReport/FillReport.jsx:91-95 | reset restores the inputs, shows every row and goes to page 1 |
| FillReport.ReportPage.GoTo | src/Pages/FillReport/FillReport.jsx:213 | a page button sets that page |
| CombinationTask.SearchFinds | src/Pages/CombinationTask/CombinationTask.jsx:58-73 | the search result is a permutation of the filtered tasks: a task is found exactly when it is loaded and matches title, id, price range and dates |
| CombinationTask.SearchOrders | src/Pages/CombinationTask/CombinationTask.jsx:75-79 | every found task has a numeric price; "asc" orders prices nondecreasing, "desc" nonincreasing, and any other option keeps the filtered order |
| CombinationTask.NegativePriceHidden | src/Pages/CombinationTask/CombinationTask.jsx:63-65 | with no minimum typed the minimum is 0, so a task with a negative price is never found |
| CombinationTask.EmptyFiltersMatch | src/Pages/CombinationTask/CombinationTask.jsx:60-72 | with every filter empty a task matches exactly when it has a title, an id and a price of at least 0 |
| CombinationTask.Flagged | src/Pages/CombinationTask/CombinationTask.jsx:96-99 | every task keeps its place and is flagged selected exactly when its product id is in the selection |
| CombinationTask.ToggleFlipsFlag | src/Pages/CombinationTask/CombinationTask.jsx:84-101 | toggling an id flips the flag of the tasks with that product id and no other flag |
| CombinationTask.SelectedTasks | src/Pages/CombinationTask/CombinationTask.jsx:120-122 | the selected tasks are loaded tasks whose ids are selected, at most one per selected id |
| CombinationTask.SelectedInOrder | src/Pages/CombinationTask/CombinationTask.jsx:120-122 | when every selected id names a loaded task, the selected tasks follow the selection order, one per id |
| CombinationTask.UnknownIdDropped | src/Pages/CombinationTask/CombinationTask.jsx:122 | a selected id no task has is dropped from the selected tasks |
| CombinationTask.PrefixSumNaN | src/Pages/CombinationTask/CombinationTask.jsx:135-141 | a running sum is NaN exactly when some amount before it is NaN |
| CombinationTask.PrefixSumRises | src/Pages/CombinationTask/CombinationTask.jsx:135-141 | with non-negative amounts the running sums are numbers and never fall |
| CombinationTask.AmountSums | src/Pages/CombinationTask/CombinationTask.jsx:136-141 | the loop produces at most ten sums, the i-th being the sum of the first i + 1 amounts |
| CombinationTask.Prices | src/Pages/CombinationTask/CombinationTask.jsx:135 | the amounts are the selected tasks' prices, one each, in order |
| CombinationTask.CombinationDialog.constructor | src/Pages/CombinationTask/CombinationTask.jsx:12-24 | the dialog starts with no tasks, no filters, no selection and no target |
| CombinationTask.CombinationDialog.Load | src/Pages/CombinationTask/CombinationTask.jsx:28-41 | a fetch shows every task unselected; a failure changes nothing |
| CombinationTask.CombinationDialog.Edit | src/Pages/CombinationTask/CombinationTask.jsx:17-22 | typing sets the filters only |
| CombinationTask.CombinationDialog.EditTarget | src/Pages/CombinationTask/CombinationTask.jsx:193 | typing sets the target task number only |
| CombinationTask.CombinationDialog.Search | src/Pages/CombinationTask/CombinationTask.jsx:58-82 | Search shows the filtered and sorted tasks |
| CombinationTask.CombinationDialog.Reset | src/Pages/CombinationTask/CombinationTask.jsx:47-56 | reset empties the filters and shows every task |
| CombinationTask.CombinationDialog.ToggleTaskSelect | src/Pages/CombinationTask/CombinationTask.jsx:84-118 | the id is toggled in the selection, every flag follows it, and the list is filtered again but not sorted |
| CombinationTask.CombinationDialog.SaveTargetTask | src/Pages/CombinationTask/CombinationTask.jsx:124-175 | with no target or no selected task a warning shows and nothing is sent; otherwise the body carries the user, the target read by `parseInt` without a radix (so "0x1A" is 26), the selected tasks, their count, running task 2 and the first ten running sums |
| Text.ParseIntAutoHex | src/Pages/CombinationTask/CombinationTask.jsx:147 | after "0x" or "0X", a run of hexadecimal digits is read as its base-16 value |
| Text.ParseIntAutoBarePrefix | src/Pages/CombinationTask/CombinationTask.jsx:147 | "0x" or "0X" with no hexadecimal digit after it is NaN |
| Text.ParseIntAutoOfDigits | src/Pages/CombinationTask/CombinationTask.jsx:147 | a run of decimal digits is read in base 10, leading zeros included |
| Text.ParseIntAutoRoundTrip | src/Pages/CombinationTask/CombinationTask.jsx:147 | reading back the text of any integer without a radix gives that integer |
| CombinationTask.HexTargetNumber | src/Pages/CombinationTask/CombinationTask.jsx:147 | a typed target "0x1A" posts 26 |
| CombinationTask.BareHexTargetNumber | src/Pages/CombinationTask/CombinationTask.jsx:147 | a typed target "0x" posts NaN |
| CombinationTask.LeadingZeroTargetNumber | src/Pages/CombinationTask/CombinationTask.jsx:147 | a typed target "012" posts 12, not an octal value |
| CombineTaskHistory.BeforeTotal | src/Pages/CombineTaskHistory/CombineTaskHistory.jsx:15-27 | the comparator orders any two tasks one way or the other, so the sort has a defined order |
| CombineTaskHistory.TargetTasksKept | src/Pages/CombineTaskHistory/CombineTaskHistory.jsx:13-14 | the history is a permutation of the tasks that have a target task, and holds exactly them |
| CombineTaskHistory.TargetTasksSorted | src/Pages/CombineTaskHistory/CombineTaskHistory.jsx:15-27 | the history is sorted by the comparator |
| CombineTaskHistory.PendingFirst | src/Pages/CombineTaskHistory/CombineTaskHistory.jsx:16-21 | when every status is Pending or Complete, no Complete task comes before a Pending one |
| CombineTaskHistory.NoCompleteThenPending | src/Pages/CombineTaskHistory/CombineTaskHistory.jsx:16-21 | in any list sorted by the comparator with known statuses, no Complete task precedes a Pending one |
| CombineTaskHistory.LatestFirstWithinStatus | src/Pages/CombineTaskHistory/CombineTaskHistory.jsx:23-26 | two neighbours with the same status and start dates are ordered latest start first |
| CombineTaskHistory.Load | src/Pages/CombineTaskHistory/CombineTaskHistory.jsx:9-33 | a fetch shows the sorted target tasks in both lists; a failure changes nothing; the search inputs stay |
| CombineTaskHistory.SearchFinds | src/Pages/CombineTaskHistory/CombineTaskHistory.jsx:39-48 | a task is found exactly when it is loaded, its username contains the typed text ignoring case and, with a target typed, its target task equals the parsed number |
| CombineTaskHistory.NonNumericTargetFindsNothing | src/Pages/CombineTaskHistory/CombineTaskHistory.jsx:42-43 | a typed target that is not a number finds nothing |
| CombineTaskHistory.TargetSearchExact | src/Pages/CombineTaskHistory/CombineTaskHistory.jsx:42-43 | typing the decimal digits of n finds only tasks whose target task is n |
| CombineTaskHistory.Reset | src/Pages/CombineTaskHistory/CombineTaskHistory.jsx:50-54 | reset empties both inputs and shows every loaded task |
| CombineTaskHistory.ResetThenSearchShowsAll | src/Pages/CombineTaskHistory/CombineTaskHistory.jsx:39-54 | searching right after a reset finds every loaded task |
| RewardTaskList.Load | src/Pages/RewardTaskList/RewardTaskList.jsx:9-17 | a fetch shows the tasks in both lists; a failure changes nothing; the search inputs stay |
| RewardTaskList.EditEmail | src/Pages/RewardTaskList/RewardTaskList.jsx:61-67 | typing sets the username search only |
| RewardTaskList.SearchFinds | src/Pages/RewardTaskList/RewardTaskList.jsx:19-28 | a task is found exactly when it is loaded, its username contains the typed text ignoring case and, with a target typed, its target task equals the parsed number |
| RewardTaskList.Reset | src/Pages/RewardTaskList/RewardTaskList.jsx:30-34 | reset empties both inputs and shows every loaded task |
| RewardTaskList.DeleteOnlyThatId | src/Pages/RewardTaskList/RewardTaskList.jsx:36-49 | a positive deleted count removes the tasks with that id and no other, and both lists show the result |
| RewardTaskList.DeleteRefused | src/Pages/RewardTaskList/RewardTaskList.jsx:42 | a failed request or a deleted count of zero or less changes nothing |
| RewardTaskList.RunningTaskStaysEmpty | src/Pages/RewardTaskList/RewardTaskList.jsx:22-24 | with the target input commented out of the page, the target search stays empty through any events, so a search filters by username alone |
| TaskRecord.Load | src/Pages/TaskRecord/TaskRecord.jsx:12-26 | a fetch shows the records newest first; a failure keeps the old data; the spinner stops either way and the page and filters stay |
| TaskRecord.LoadedNewestFirst | src/Pages/TaskRecord/TaskRecord.jsx:17 | the loaded records are a permutation of the fetched ones, and neighbours with start dates are ordered latest start first |
| TaskRecord.FilterFinds | src/Pages/TaskRecord/TaskRecord.jsx:38-46 | a record is shown exactly when it is loaded and matches the username, task id and status filters |
| TaskRecord.EmptyFilterNoConstraint | src/Pages/TaskRecord/TaskRecord.jsx:39-44 | each filter is a case-insensitive substring test, and an empty filter accepts every record |
| TaskRecord.PagesShape | src/Pages/TaskRecord/TaskRecord.jsx:48-49 | a page holds at most 500 records, the page's records are the filtered ones from (page - 1) * 500 on, and the pages up to the page count together give back every filtered record |
| TaskRecord.EditFilters | src/Pages/TaskRecord/TaskRecord.jsx:29-31 | typing sets the filters only |
| TaskRecord.GoTo | src/Pages/TaskRecord/TaskRecord.jsx:123-126 | a page button sets the page only |
| TaskRecord.Reset | src/Pages/TaskRecord/TaskRecord.jsx:33-35 | reset empties the filters and keeps the page |
| TaskRecord.ResetShowsAll | src/Pages/TaskRecord/TaskRecord.jsx:33-46 | after a reset every loaded record is shown |
| TaskReport.Load | src/Pages/TaskReport/TaskReport.jsx:35-44 | an admin sees the rows and the spinner stops; anyone else is sent away and nothing changes |
| TaskReport.FilterFinds | src/Pages/TaskReport/TaskReport.jsx:54-62 | an order is shown exactly when it is loaded and matches the member id, account and user type filters |
| TaskReport.UserTypes | src/Pages/TaskReport/TaskReport.jsx:57-60 | "ordinary" keeps exactly the real members, "internal" exactly the virtual ones, and any other value but "all" keeps nothing |
| TaskReport.UserTypesPartition | src/Pages/TaskReport/TaskReport.jsx:57-60 | the orders shown for "all" are exactly those shown for "ordinary" together with those for "internal", and the two counts add up |
| TaskReport.PageShape | src/Pages/TaskReport/TaskReport.jsx:64-65 | a page holds at most 5 orders, the filtered ones from (page - 1) * 5 on |
| TaskReport.EditFilters | src/Pages/TaskReport/TaskReport.jsx:46-48 | typing sets the filters only |
| TaskReport.GoTo | src/Pages/TaskReport/TaskReport.jsx:133-136 | a page button sets the page only |
| TaskReport.Reset | src/Pages/TaskReport/TaskReport.jsx:50-52 | reset sets the filters to empty and "all" and keeps the page |
| TaskReport.ResetShowsAll | src/Pages/TaskReport/TaskReport.jsx:50-62 | after a reset every loaded order is shown |
| UsdtAddress.Load | src/Pages/UsdtAddres/UsdtAddres.jsx:15-22 | a fetch stores the wallets in reverse order and shows none until a search; a failure changes nothing |
| UsdtAddress.LoadedReversed | src/Pages/UsdtAddres/UsdtAddres.jsx:19 | the stored list has the fetched length and its i-th wallet is the fetched list's i-th from the end |
| UsdtAddress.Edit | src/Pages/UsdtAddres/UsdtAddres.jsx:60-73 | typing sets the two search inputs only |
| UsdtAddress.SearchFinds | src/Pages/UsdtAddres/UsdtAddres.jsx:24-31 | a wallet is shown exactly when it is stored and matches the id and account searches; the page goes back to 1 |
| UsdtAddress.EmptySearchFindsAll | src/Pages/UsdtAddres/UsdtAddres.jsx:26-27 | a search with both inputs empty shows every stored wallet |
| UsdtAddress.DeleteOnlyShown | src/Pages/UsdtAddres/UsdtAddres.jsx:40-52 | any answer removes the wallets with that id from the shown list and no other, the stored list keeps them, and an exception changes nothing |
| UsdtAddress.PageShape | src/Pages/UsdtAddres/UsdtAddres.jsx:33-34 | a page holds at most 25 wallets, and the row with a given serial number is the shown wallet at that position |
| UsdtAddress.Prev | src/Pages/UsdtAddres/UsdtAddres.jsx:129 | Prev moves one page back, never below 1 |
| UsdtAddress.Next | src/Pages/UsdtAddres/UsdtAddres.jsx:137 | Next moves one page on, never past the page count |
| NationalAgents.NoFiltersKeepAll | src/Pages/NationalAgents/NationalAgents.jsx:9-47 | with the initial filters every agent is shown, in order |
| NationalAgents.IdText | src/Pages/NationalAgents/NationalAgents.jsx:36 | a record's id as `String` reads it: its text, or "undefined" when the record has none |
| NationalAgents.MissingIdMatchesUndefined | src/Pages/NationalAgents/NationalAgents.jsx:36 | a record without an id is kept by the id filters "un" and "undefined" |
| NationalAgents.MissingAccountThrows | src/Pages/NationalAgents/NationalAgents.jsx:38-40 | with an account filter and no id filter, a first record without an account makes the account step throw |
| NationalAgents.TypeFilterExact | src/Pages/NationalAgents/NationalAgents.jsx:41-43 | a chosen type other than All shows only agents of exactly that type |
| NationalAgents.FirstStep | src/Pages/NationalAgents/NationalAgents.jsx:35-37 | the id step filters exactly as the first stage of the combined filter |
| NationalAgents.SecondStep | src/Pages/NationalAgents/NationalAgents.jsx:38-40 | the account step on the first stage's result equals the second stage of the combined filter |
| NationalAgents.ThirdStep | src/Pages/NationalAgents/NationalAgents.jsx:41-43 | the type step on the second stage's result equals the combined filter |
| NationalAgents.AgentsPage.constructor | src/Pages/NationalAgents/NationalAgents.jsx:7-10 | the page starts empty, with the initial filters, on page 1 |
| NationalAgents.AgentsPage.ApplyFilters | src/Pages/NationalAgents/NationalAgents.jsx:32-47 | the three filter steps in turn show the agents that pass the combined filter, on page 1; when a record without an account reaches the account step the effect throws and sets nothing |
| NationalAgents.AgentsPage.Narrow | src/Pages/NationalAgents/NationalAgents.jsx:38-46 | after the id step, the account and type steps leave exactly the agents that pass the combined filter, on page 1 |
| NationalAgents.AgentsPage.Load | src/Pages/NationalAgents/NationalAgents.jsx:14-30 | a non-admin is sent away; an admin's fetch stores the agents and the filter effect runs on them; a failed fetch changes nothing |
| NationalAgents.AgentsPage.EditFilters | src/Pages/NationalAgents/NationalAgents.jsx:62-80 | a filter change sets the filters and runs the filter effect, which shows the matching agents on page 1 unless it throws |
| NationalAgents.AgentsPage.Reset | src/Pages/NationalAgents/NationalAgents.jsx:49-51 | reset restores the initial filters, shows every agent and returns to page 1 |
| NationalAgents.AgentsPage.PageShape | src/Pages/NationalAgents/NationalAgents.jsx:53-54 | a page holds at most 5 agents, the shown ones from (page - 1) * 5 on |
| NationalAgents.AgentsPage.Prev | src/Pages/NationalAgents/NationalAgents.jsx:155 | Prev moves one page back, never below 1 |
| NationalAgents.AgentsPage.Next | src/Pages/NationalAgents/NationalAgents.jsx:159 | Next moves one page on, never past the page count |
| Kyc.NewestFirst | src/Pages/KYC/Kyc.jsx:30 | the sorted requests are a permutation of the fetched ones, and neighbours with submission times are ordered latest first |
| Kyc.StatusStep | src/Pages/KYC/Kyc.jsx:49-51 | the status step filters exactly as the status stage of the combined filter |
| Kyc.TermStep | src/Pages/KYC/Kyc.jsx:53-59 | the search step on the status step's result equals the combined filter |
| Kyc.FilterFinds | src/Pages/KYC/Kyc.jsx:46-62 | a request is shown exactly when it is loaded and matches the status and the search term; a chosen status shows only requests with exactly that status |
| Kyc.VerifyFlag | src/Pages/KYC/Kyc.jsx:91 | the user is marked Verified exactly when the request is approved, and Unverified otherwise |
| Kyc.Actions | src/Pages/KYC/Kyc.jsx:242 | a row offers Approve and Reject exactly when its request is Pending |
| Kyc.WithStatus | src/Pages/KYC/Kyc.jsx:99-101 | the list keeps its length; the requests with that id get the new status and the others stay |
| Kyc.WithStatusOnlyThatId | src/Pages/KYC/Kyc.jsx:99-101 | a request with another id is unchanged, and one with that id differs only in its status |
| Kyc.DecidedIsCompleted | src/Pages/KYC/Kyc.jsx:99-101 | after an approval or a rejection the request offers no more actions |
| Kyc.KycPage.constructor | src/Pages/KYC/Kyc.jsx:5-21 | the page starts empty and loading, with status All, no search and the dialog closed |
| Kyc.KycPage.ApplyFilters | src/Pages/KYC/Kyc.jsx:46-62 | the two filter steps in turn show the requests that pass the combined filter |
| Kyc.KycPage.Load | src/Pages/KYC/Kyc.jsx:24-43 | an array is stored newest first; anything else keeps the list; the shown list follows the filters and the spinner stops |
| Kyc.KycPage.EditFilters | src/Pages/KYC/Kyc.jsx:150-158 | choosing a status or typing a term refilters at once |
| Kyc.KycPage.OpenConfirm | src/Pages/KYC/Kyc.jsx:65-72 | the dialog opens asking to confirm the chosen status for that request |
| Kyc.KycPage.CancelConfirm | src/Pages/KYC/Kyc.jsx:315-342 | cancel closes the dialog and keeps the request in it |
| Kyc.KycPage.StatusUpdate | src/Pages/KYC/Kyc.jsx:75-121 | without a request nothing happens; otherwise the status patch is sent, then the user flag unless the first request threw; only two ok answers update the status of that request and show success; otherwise the list stays and the alert names a network error or a failed update |
| AdminList.NoSuperAdminListed | src/Pages/AdminList/AdminList.jsx:50 | the stored list holds exactly the fetched admins whose role is not "superAdmin", and is no longer than the fetched one |
| AdminList.EmailTakenIgnoresCase | src/Pages/AdminList/AdminList.jsx:112 | an address listed under another letter case counts as taken |
| AdminList.AdminPage.constructor | src/Pages/AdminList/AdminList.jsx:5-40 | the page starts loading with no admins, empty filters, every dialog closed and the empty form |
| AdminList.AdminPage.FilteredFinds | src/Pages/AdminList/AdminList.jsx:81-88 | the table shows exactly the admins that pass the filters last applied |
| AdminList.AdminPage.ShowError | src/Pages/AdminList/AdminList.jsx:65-68 | the error dialog opens with the message |
| AdminList.AdminPage.Load | src/Pages/AdminList/AdminList.jsx:45-58 | a fetch stores the admins without the super admin; a failure keeps them and shows the load error; the spinner stops either way |
| AdminList.AdminPage.EditFilters | src/Pages/AdminList/AdminList.jsx:95-98 | typing changes the inputs only; the table waits for Search |
| AdminList.AdminPage.Search | src/Pages/AdminList/AdminList.jsx:71-73 | Search applies the typed filters |
| AdminList.AdminPage.Reset | src/Pages/AdminList/AdminList.jsx:75-79 | reset empties both the inputs and the applied filters, so the table shows every admin |
| AdminList.AdminPage.EditForm | src/Pages/AdminList/AdminList.jsx:90-93 | typing sets the form only |
| AdminList.AdminPage.Submit | src/Pages/AdminList/AdminList.jsx:100-141 | no role: the role error and nothing sent; an email already listed, ignoring case: the duplicate error and nothing sent; otherwise the form is posted, an ok answer closes the dialog, resets the form and reloads, and a failure or an exception shows its own error |
| AdminList.AdminPage.ConfirmDeleteRequest | src/Pages/AdminList/AdminList.jsx:144-147 | the id is remembered and the delete dialog opens |
| AdminList.AdminPage.ExecuteDelete | src/Pages/AdminList/AdminList.jsx:150-171 | no id (or an empty one) does nothing; an ok answer removes that admin, closes the dialog and forgets the id; otherwise the dialog closes, the list and the id are kept and the error names a failed or an excepted request |
| AdminList.DeleteOnlyThatId | src/Pages/AdminList/AdminList.jsx:159 | a delete removes the admins with that id and no other |
| AdminList.EmptyFiltersShowAll | src/Pages/AdminList/AdminList.jsx:81-88 | with empty filters the table is the whole list, in order |
| AdminList.RoleFilterExact | src/Pages/AdminList/AdminList.jsx:84 | a chosen role shows only admins with exactly that role |
| Member.UserEmail | src/Pages/MembershipList/Member.jsx:11 | requests go to the email, or to the phone when the email is empty; the key is empty only when both are |
| Member.JsRem | src/Pages/MembershipList/Member.jsx:102-103 | JavaScript's remainder: the Euclidean one for a non-negative count, and between -b and 0 for a negative one |
| Member.PadStart2 | src/Pages/MembershipList/Member.jsx:101-103 | the padded text has at least two characters and ends with the original |
| Member.PadStartNat | src/Pages/MembershipList/Member.jsx:101-103 | padding a natural number gives its two-digit form |
| Member.ClockFields | src/Pages/MembershipList/Member.jsx:101-103 | for a count of at least 0 the minutes are below 60 and hours, minutes and seconds add back up to the count |
| Member.FormatTimeFields | src/Pages/MembershipList/Member.jsx:100-105 | a running countdown shows hours, minutes below 60 and seconds below 60 that add up to it, twelve characters long under 100 hours |
| Member.ExpiredCountdown | src/Pages/MembershipList/Member.jsx:97-105 | a countdown one second past its end shows "-1 : -1 : -1" |
| Member.ExtensionField | src/Pages/MembershipList/Member.jsx:129-131 | a blank input counts as 0; any other is read by parseInt and may be NaN |
| Member.ExtensionSeconds | src/Pages/MembershipList/Member.jsx:129-132 | the total is a number exactly when all three inputs are, and is then hours times 3600 plus minutes times 60 plus seconds |
| Member.BlankInputsAddNothing | src/Pages/MembershipList/Member.jsx:129-132 | blank minutes and seconds add nothing, and three blank inputs give 0 |
| Member.ReadsBack | src/Pages/MembershipList/Member.jsx:101-131 | a two-digit field typed back into an input reads as its number |
| Member.ReadsBackSum | src/Pages/MembershipList/Member.jsx:129-132 | three two-digit fields typed back give their total in seconds |
| Member.FieldsSum | src/Pages/MembershipList/Member.jsx:132 | three inputs read as numbers give their weighted sum |
| Member.FormatTimeReadsBack | src/Pages/MembershipList/Member.jsx:100-132 | typing back the fields the countdown shows extends by exactly the time shown |
| Member.ValidAmountParses | src/Pages/MembershipList/Member.jsx:390-411 | an amount that passes the check is read by parseFloat as the same positive number |
| Member.VipTrainingBal | src/Pages/MembershipList/Member.jsx:663-664 | the training balance sent is 1000 exactly for the "Training" level and 0 for any other |
| Member.BalancePatch | src/Pages/MembershipList/Member.jsx:409-413 | "Deductbalance" takes the amount off the fetched balance and keeps the deposits; any other type adds it to both; the withdrawals are sent unchanged |
| Member.BalancePatchMoves | src/Pages/MembershipList/Member.jsx:409-413 | for a positive amount the balance moves by exactly the amount, up or down, and the deposits never fall |
| Member.MemberRow.constructor | src/Pages/MembershipList/Member.jsx:11-25 | the row starts from the list's copy of every field, with no fetched member and the spinner on |
| Member.MemberRow.Refresh | src/Pages/MembershipList/Member.jsx:30-59 | a fetched member replaces every field but the training balance and the reset count, and stops the spinner; a failed fetch changes nothing |
| Member.MemberRow.ToggleFreeze | src/Pages/MembershipList/Member.jsx:315-349 | once confirmed the opposite flag is sent, and any answer flips the row's flag; cancelling sends nothing |
| Member.MemberRow.ToggleInvitation | src/Pages/MembershipList/Member.jsx:535-569 | once confirmed the opposite invitation flag is sent, and any answer flips the row's flag |
| Member.MemberRow.ToggleWithdraw | src/Pages/MembershipList/Member.jsx:571-608 | once confirmed the opposite withdrawal flag is sent, and any answer flips the row's flag |
| Member.MemberRow.AddMoney | src/Pages/MembershipList/Member.jsx:351-444 | an empty, non-numeric or non-positive amount sends nothing; otherwise the deposit record and the balance patch are sent, and any answer adds the amount to the row's balance and deposits, whatever the type |
| Member.MemberRow.AddTrainingMoney | src/Pages/MembershipList/Member.jsx:446-533 | the same check; the Training deposit and the fetched training balance plus the amount are sent, and any answer adds the amount to the row's training balance |
| Member.MemberRow.ChangeVip | src/Pages/MembershipList/Member.jsx:610-700 | once confirmed the level is sent with its training balance and the row's balance unchanged; any answer shows the new level |
| Member.MemberRow.ModifyParent | src/Pages/MembershipList/Member.jsx:703-777 | a confirmed, non-blank code is sent trimmed and, once answered, shown; otherwise nothing is sent |
| Member.MemberRow.ResetTask | src/Pages/MembershipList/Member.jsx:780-833 | only after both confirmations are task count 0 and the fetched reset count plus one sent; an answer shows no tasks done and one more reset than the row showed |
| Member.MemberRow.Credibility | src/Pages/MembershipList/Member.jsx:957-1026 | a confirmed trimmed number of at least 0 is sent with "%" appended and, once answered, shown; anything else sends nothing |
| Member.MemberRow.ExtendTime | src/Pages/MembershipList/Member.jsx:94-190 | a confirmed positive total moves a valid end time later by that many seconds, sends it and stores it at once; a zero, negative or NaN total or an invalid end time sends nothing and keeps it |
| Member.MemberRow.Delete | src/Pages/MembershipList/Member.jsx:1028-1066 | the list is asked to delete the member only after both confirmations |
| SignupBonus.WithDay | src/Pages/SignupBonus/SignupBonus.jsx:48-52 | adding a day keeps every day and appends one numbered one past the length, with reward 0 |
| SignupBonus.WithoutDay | src/Pages/SignupBonus/SignupBonus.jsx:55-65 | removing drops the last day when there are two or more, and keeps a single day |
| SignupBonus.RewardOf | src/Pages/SignupBonus/SignupBonus.jsx:43 | a cleared input is blank; any other is read by parseInt and may be NaN |
| SignupBonus.WithReward | src/Pages/SignupBonus/SignupBonus.jsx:40-45 | an edit changes only that day's reward; the day numbers and the other days stay |
| SignupBonus.RemoveUndoesAdd | src/Pages/SignupBonus/SignupBonus.jsx:48-65 | removing a day right after adding one gives the list back |
| SignupBonus.EditsKeepDays | src/Pages/SignupBonus/SignupBonus.jsx:40-65 | adding, removing and editing keep days numbered 1, 2, ... with at least one day |
| SignupBonus.TypedNumberIsValid | src/Pages/SignupBonus/SignupBonus.jsx:43-73 | typing a whole number stores it and keeps the list savable |
| SignupBonus.SaveMessage | src/Pages/SignupBonus/SignupBonus.jsx:93-103 | the save message is a success exactly when the server answers ok, and an error otherwise |
| SignupBonus.BonusPage.constructor | src/Pages/SignupBonus/SignupBonus.jsx:5-8 | the editor starts empty and loading, with no message |
| SignupBonus.BonusPage.Load | src/Pages/SignupBonus/SignupBonus.jsx:18-37 | a non-empty array is taken as it is; an empty one, another value or a failure gives day 1 with reward 0, a failure with the load error; the list is never empty and the spinner stops |
| SignupBonus.BonusPage.RewardChange | src/Pages/SignupBonus/SignupBonus.jsx:40-45 | typing in a row stores that row's new reward only |
| SignupBonus.BonusPage.AddDay | src/Pages/SignupBonus/SignupBonus.jsx:48-52 | the next day is appended and the message cleared |
| SignupBonus.BonusPage.RemoveDay | src/Pages/SignupBonus/SignupBonus.jsx:55-65 | the last day goes unless it is the only one, which shows the at-least-one-day error |
| SignupBonus.BonusPage.Save | src/Pages/SignupBonus/SignupBonus.jsx:68-106 | the list is sent exactly when every reward is a number; otherwise the invalid-field error shows; the answer decides the message and saving ends |
| SystemSettings.TwelveHoursOn | src/Pages/SystemSettings/SystemSettings.jsx:14-18 | the end time is an eight-character clock time, never "No Time" |
| SystemSettings.TwelveHoursOnFields | src/Pages/SystemSettings/SystemSettings.jsx:14-18 | the end time shows the current UTC hour moved twelve round the day, with the current minutes and seconds |
| SystemSettings.SettingsPage.constructor | src/Pages/SystemSettings/SystemSettings.jsx:7-9 | the page starts loading, with no end time and the current UTC clock |
| SystemSettings.SettingsPage.StartEnabled | src/Pages/SystemSettings/SystemSettings.jsx:90-118 | Start is enabled exactly when the end time is "No Time" |
| SystemSettings.SettingsPage.EndEnabled | src/Pages/SystemSettings/SystemSettings.jsx:90-127 | End is enabled exactly when it is not |
| SystemSettings.SettingsPage.Load | src/Pages/SystemSettings/SystemSettings.jsx:25-37 | a non-admin is sent away and nothing changes; an admin sees the stored end time, and the spinner stops even when the fetch fails |
| SystemSettings.SettingsPage.Tick | src/Pages/SystemSettings/SystemSettings.jsx:39-44 | each tick shows the current UTC clock |
| SystemSettings.SettingsPage.UpdateEndTime | src/Pages/SystemSettings/SystemSettings.jsx:46-77 | the end time shows at once; the daily reset and then the new end time are sent |
| SystemSettings.SettingsPage.StartTask | src/Pages/SystemSettings/SystemSettings.jsx:79-82 | the task runs until twelve hours from now, the two requests are sent, and now only End is enabled |
| SystemSettings.SettingsPage.EndTask | src/Pages/SystemSettings/SystemSettings.jsx:84-88 | the end time is "No Time", the two requests are sent, and now only Start is enabled |
| AuthProvider.ShownRole | src/Providers/AuthProvider.jsx:42 | the shown role is never "superadmin", and every other role is shown unchanged |
| AuthProvider.ShownRoleCases | src/Providers/AuthProvider.jsx:42 | "superadmin" is shown as "Admin" and a role is shown as itself exactly when it is not "superadmin" |
| AuthProvider.SuperAdminSpellings | src/Providers/AuthProvider.jsx:42 | the spelling "superAdmin" is not mapped |
| AuthProvider.UserOf | src/Providers/AuthProvider.jsx:39-43 | the user carries the answer's email and username and its role as shown |
| AuthProvider.Session.constructor | src/Providers/AuthProvider.jsx:6-9 | nobody is signed in, loading is on, and the key is what storage holds |
| AuthProvider.Session.Account | src/Providers/AuthProvider.jsx:70 | the account name is the user's name, and absent without a user |
| AuthProvider.Session.SignOut | src/Providers/AuthProvider.jsx:12-18 | the key is removed, nobody is signed in, loading is over |
| AuthProvider.Session.FetchUser | src/Providers/AuthProvider.jsx:20-48 | no key: nothing is asked and only loading ends; an ok answer with an email signs that user in under the same key; a failed answer, a missing email or an exception signs out; a user is only ever present under a key, with an email and a shown role |
| Login.EmailLogin | src/Pages/Login/Login.jsx:49-71 | an empty field asks for details; otherwise the login succeeds exactly when a listed address matches ignoring case with the exact password, and stores that listed address |
| Login.PhoneLogin | src/Pages/Login/Login.jsx:74-105 | an empty field asks for details; a failed fetch is "something went wrong"; an unknown phone is not registered; a login stores the phone of a user with that exact password, and a wrong password means the phone is listed |
| Login.PhoneLoginUnique | src/Pages/Login/Login.jsx:81-93 | when the phone is listed once, the phone login succeeds exactly when its password is given |
| Login.LoginPage.constructor | src/Pages/Login/Login.jsx:32-38 | the form starts empty on the email method with nothing stored |
| Login.LoginPage.Edit | src/Pages/Login/Login.jsx:40-45 | typing sets the form only |
| Login.LoginPage.Submit | src/Pages/Login/Login.jsx:47-107 | the chosen method's outcome; the user list is fetched only for a filled phone form; a login stores its key and anything else stores nothing |
| Login.LoginPage.Swap | src/Pages/Login/Login.jsx:109-117 | `handleSwapBtn(m)` selects the given method and clears every field |
| Login.LoginPage.EmailButton | src/Pages/Login/Login.jsx:132-137 | the page's one swap button selects the email form and clears every field, so the method never leaves `ByEmail` |
| Login.StoredEmailIsListed | src/Pages/Login/Login.jsx:54-61 | the stored address and the typed password form an entry of the list |
| Login.EmailCaseIgnored | src/Pages/Login/Login.jsx:56 | typing the address in lower case logs in exactly when the original does |
| DepositAgent.AddMessage | src/Pages/DepositAgent/DepositAgent.jsx:65-75 | the add toast is a success exactly when the server answers ok, and an error otherwise |
| DepositAgent.DeleteMessage | src/Pages/DepositAgent/DepositAgent.jsx:96-104 | the delete toast is a success exactly when the server answers ok, and an error otherwise |
| DepositAgent.AgentPage.constructor | src/Pages/DepositAgent/DepositAgent.jsx:5-21 | the page starts loading with no agents, closed dialogs and the Bkash form |
| DepositAgent.AgentPage.Load | src/Pages/DepositAgent/DepositAgent.jsx:32-44 | only an array replaces the list; the spinner stops either way |
| DepositAgent.AgentPage.EditForm | src/Pages/DepositAgent/DepositAgent.jsx:215-234 | typing sets the form only |
| DepositAgent.AgentPage.AddAgent | src/Pages/DepositAgent/DepositAgent.jsx:51-79 | an empty name or number shows the fill-all-fields error and sends nothing; otherwise the form is posted, and an ok answer closes the dialog, resets the form and reloads |
| DepositAgent.AgentPage.ConfirmDelete | src/Pages/DepositAgent/DepositAgent.jsx:82-85 | the id is remembered and the dialog opens |
| DepositAgent.AgentPage.Delete | src/Pages/DepositAgent/DepositAgent.jsx:87-109 | no id (or an empty one) does nothing; otherwise the request is sent, an ok answer removes the agents with that id and closes the dialog, and the id is forgotten after every attempt |
| DepositAgent.DeleteOnlyThatId | src/Pages/DepositAgent/DepositAgent.jsx:97 | a delete removes the agents with that id and no other |
| DepositAgent.DeleteUnknownKeepsAll | src/Pages/DepositAgent/DepositAgent.jsx:97 | deleting an id that is not listed keeps the whole list |
| PromoCode.PayloadOf | src/Pages/PromoCode/PromoCode.jsx:50 | the posted code is the typed one letter by letter in capitals, and the amount is parseFloat of the input |
| PromoCode.PayloadCodeUpper | src/Pages/PromoCode/PromoCode.jsx:50 | the posted code has no lower-case letter |
| PromoCode.PayloadAmountOfNumber | src/Pages/PromoCode/PromoCode.jsx:50 | a typed whole number is posted as that number |
| PromoCode.TypedCodePosted | src/Pages/PromoCode/PromoCode.jsx:197 | a code typed into the input is posted exactly as the input shows it |
| PromoCode.AddMessage | src/Pages/PromoCode/PromoCode.jsx:59-70 | the add toast is a success exactly when the server answers ok, and an error otherwise |
| PromoCode.PromoPage.constructor | src/Pages/PromoCode/PromoCode.jsx:5-13 | the page starts loading with no codes, a closed dialog and empty inputs |
| PromoCode.PromoPage.Load | src/Pages/PromoCode/PromoCode.jsx:24-36 | only an array replaces the list; the spinner stops either way |
| PromoCode.PromoPage.EditCode | src/Pages/PromoCode/PromoCode.jsx:197 | the code input holds the typed text in capitals |
| PromoCode.PromoPage.EditAmount | src/Pages/PromoCode/PromoCode.jsx:207 | the amount input holds the typed text |
| PromoCode.PromoPage.AddPromo | src/Pages/PromoCode/PromoCode.jsx:43-73 | an empty code or amount shows the fill-all-fields error and sends nothing; otherwise the normalised payload is posted, and an ok answer clears the inputs, closes the dialog and reloads |
| PromoCode.PromoPage.Delete | src/Pages/PromoCode/PromoCode.jsx:76-93 | declining sends nothing; an ok answer removes the codes with that id; any other answer keeps the list and alerts a failed delete or a network error |
| PromoCode.DeleteOnlyThatId | src/Pages/PromoCode/PromoCode.jsx:85 | a delete removes the codes with that id and no other |
| UniqueCode.CodeOfShape | src/Pages/ProductManagement/ProductManagement.jsx:386 | every drawn code is six digits with no leading zero, worth 100000 plus the draw |
| UniqueCode.FirstFresh | src/Pages/ProductManagement/ProductManagement.jsx:383-389 | the code found is one of the drawn codes and not an existing one; none is found exactly when every draw gives an existing code |
| UniqueCode.GenerateUniqueCode | src/Pages/ProductManagement/ProductManagement.jsx:383-389 | the draw-until-new loop returns the first drawn code that is not already used |
| Clock.InRangeAt | src/Pages/DepositRecord/DepositRecord.jsx:55-56 | with both dates set, a record passes exactly when its date lies between them, both ends included |
| Clock.UndatedPassesOnlyUnfiltered | src/Pages/WithdrawRecord/WithdrawRecord.jsx:143-144 | a record without a readable date passes only when no date filter is set |
| Clock.DayStart | src/Pages/WithdrawRecord/WithdrawRecord.jsx:133 | the start of a day is at or before the moment, less than a day before it, and on a day boundary |
| Clock.DayEnd | src/Pages/WithdrawRecord/WithdrawRecord.jsx:136 | the end of a day is the last millisecond before the next day's start |
| Clock.SameDay | src/Pages/WithdrawRecord/WithdrawRecord.jsx:133-136 | every moment between a day's start and end has that same day |
| Clock.WholeDaysInRange | src/Pages/WithdrawRecord/WithdrawRecord.jsx:132-144 | a moment on the start day, the end day or between passes the whole-day filter |
| Clock.FormatDateTimeRoundTrip | src/Pages/DepositRecord/DepositRecord.jsx:77-82 | a formatted date-time has 19 characters and reads back as the same date-time |
| Clock.UtcClockParts | src/Pages/SystemSettings/SystemSettings.jsx:21-23 | the UTC clock has eight characters whose fields read back as the hour, minute and second of the moment |
| Clock.TwelveHoursLater | src/Pages/SystemSettings/SystemSettings.jsx:16 | twelve hours on, the UTC hour is moved by twelve round the day and the minutes and seconds are the same |
| Paging.CeilDiv | src/Pages/ProductManagement/ProductManagement.jsx:591 | the page count is the least number of pages that holds every row |
| Paging.ClampIndex | src/Pages/ProductManagement/ProductManagement.jsx:592 | a slice index is clamped into the list, and an index already inside is kept |
| Paging.Slice | src/Pages/ProductManagement/ProductManagement.jsx:592 | a slice holds the rows from its start on, as many as fit before its end and the list's end |
| Paging.PageContents | src/Pages/ProductManagement/ProductManagement.jsx:592 | a page holds at most the page size of rows, those from (page - 1) * size on |
| Paging.PageNonEmpty | src/Pages/ProductManagement/ProductManagement.jsx:591-592 | a page has rows exactly when its number is at most the page count |
| Paging.RowOnPage | src/Pages/ProductManagement/ProductManagement.jsx:592 | the i-th row is on page i / size + 1, at position i % size |
| Paging.PagesCoverAll | src/Pages/ProductManagement/ProductManagement.jsx:591-592 | the pages up to the page count, put together, are the whole list |
| Paging.SerialIsPosition | src/Pages/UsdtAddres/UsdtAddres.jsx:97 | a row's serial number is its position in the whole list, counted from 1 |
| Paging.PrevPage | src/Pages/UsdtAddres/UsdtAddres.jsx:129 | Prev moves one back, and from page 1 (or below) stays on page 1 |
| Paging.NextPage | src/Pages/UsdtAddres/UsdtAddres.jsx:137 | Next moves one on, and from the last page (or past it) stays on the last page |
| Paging.PrevNextStayInRange | src/Pages/UsdtAddres/UsdtAddres.jsx:129-137 | from a page in range, Prev and Next stay in range |
| Collections.Toggle | src/Pages/CombinationTask/CombinationTask.jsx:84-93 | after a toggle the id is selected exactly when it was not, and the other ids are kept |
| Collections.ToggleTwiceAbsent | src/Pages/CombinationTask/CombinationTask.jsx:84-93 | selecting an id and toggling it again restores the selection |
| Collections.ToggleNoDuplicates | src/Pages/CombinationTask/CombinationTask.jsx:84-93 | toggling keeps the selection free of duplicates |
| Collections.SortWithStable | src/Pages/ProductManagement/ProductManagement.jsx:298-302 | the sort is stable: elements that tie with one another keep their input order |

## Left out

- Network I/O: each request is a parameter (`Reply`, `Fetched`, ...), and a handler that
  sends a body returns it, with the exceptions below. The server's own rules on balances, KYC and VIP levels are
  not part of this model.
- Timers: the 3-second member poll, the 60-second session poll, the one-second clocks, the
  countdown ticker, the toast timeouts and the 500 ms fake delay. Each tick is a method that
  takes the current time as a parameter.
- Clocks and `Date.now()`: the current time is a parameter, an integer count of milliseconds.
- Navigation and page reloads: where a page sends a non-admin away, the load method
  returns a `redirected` flag (FillReport, NationalAgents, SystemSettings), except
  `TaskReport.Load`, which only leaves the view unchanged. The reload after
  `AuthProvider.Session.SignOut` and after a login, and the navigation after a login, are
  not modelled.
- Floating point: money is a `real`. `toFixed`, the 5% fee's rounding and other display
  rounding are not modelled.
- General date parsing and time zones: times are UTC millisecond timestamps; an unparsable
  date is `None` or `Clock.Invalid`.
- Randomness: the random draws of the code generator are a parameter sequence.
- Image uploads (imgbb, FileReader, canvas resizing): the uploaded URL is a parameter.
- `Array.prototype.sort` sorts in place; the model sorts a sequence with a stable sort
  proved sorted and a permutation, so in-place update and aliasing are not captured. The
  date comparators (`NewerFirst` in ProductManagement, DepositRecord, WithdrawRecord and
  FillReport, `CombineTaskHistory.Before`, `TaskRecord.StartedLater`, `Kyc.SubmittedLater`)
  give NaN, a tie, for a missing date, so they are not consistent orders. For such rows
  JavaScript's order is implementation-defined, while the model fixes the order its
  insertion sort gives.
- Fetched records are assumed to carry every field the page reads, except where a field
  is an `Option` (as in NationalAgents and CombinationTask). A withdrawal without a
  status, for instance, would make `status.toLowerCase()` throw and the whole load fail
  with its error message; the model cannot represent that record.
- AdminList.AdminPage.Submit: the browser's `required` and `type="email"` checks on the
  username, email and password inputs, which stop a blank or malformed form before
  `handleSubmit` runs, are not modelled; the model posts such a form.
- Dialogs, `window.confirm` and DOM reads: the operator's answer is a boolean parameter.
  Most pages' toasts and alerts are a returned or stored message; the exceptions follow.
- ProductManagement.ProductPage.AddProduct, ProductManagement.ProductPage.SubmitEdit: the
  POST and PATCH bodies are not returned. What the contracts state is the row each one
  caches from its body (`NewItemAsWritten`, `Merged`).
- ProductManagement.ProductPage.StartEdit: the text `String` makes of the price and the
  reaction counts is a parameter, because number-to-text conversion is not modelled. A
  missing second review description is shown in the form as "", and after an edit it is
  saved as "" rather than left out of the body.
- Member.MemberRow: its toasts are not modelled; each handler states the request it sends
  and the new state only.
- SystemSettings.SettingsPage.UpdateEndTime: the success dialog after the end time is saved
  is not modelled.
- CombinationTask.CombinationDialog.SaveTargetTask: the answer to the POST and its success
  or failure dialog are not modelled; the method returns the body it posts.
- Member: the promotion, withdraw-password, login-password and combination-task dialogs
  are not modelled.
- Member.MemberRow: the fetch of the VIP levels on mount, and the "Total:" task limit it
  takes from the level matching the member's VIP level, are not modelled; the VIP change
  takes its level as a parameter.
- TaskReport: the generated sample data is a parameter, not the hard-coded list.
- Login: the built-in admin credential list is a parameter, not the hard-coded list.
- Concurrency and the order in which overlapping requests finish: each handler runs to
  completion with its answers given.
- Styling and markup.
- Numbers.ParseFloat: reads decimal text only. An exponent is not read, so "1e3" reads as
  1 where JavaScript gives 1000, and "Infinity" is NaN (None). A minimum price of "1e3"
  therefore filters at 1 (`Numbers.ExponentNotRead`, `Numbers.InfinityNotRead`).
- Numbers.ToNumber: reads decimal text only, so "1e3", hexadecimal ("0x10") and "Infinity"
  are NaN (None), where JavaScript gives a number. A Member amount of "1e3" is refused
  (`Numbers.ExponentNotRead`).
- Text.Lower, Text.Upper: map the ASCII letters only. `toLowerCase` and `toUpperCase` also
  map other letters ("É" to "é"); the model leaves them unchanged (`Text.OnlyAsciiFolded`).
- NationalAgents.AgentsPage.ApplyFilters: when the filter effect throws, the model only
  reports it (`crashed`) with the lists unchanged; what React then does with the page is
  not modelled.
- ProductManagement.GoToPage: a fractional number is rounded down to a whole page; the
  page sets the fractional value as typed.

## Findings

| source | as written | input that shows it | evidently intended | confidence | as-written member | corrected member |
|---|---|---|---|---|---|---|
| src/Pages/MembershipList/MembershipList.jsx:341-365 | past page 3 the pager adds a "1" button before the page list, and the list always contains page 1 too; likewise, below page total - 2 it adds a last-page button after a list that already ends with the last page (`MembershipList.LastPageTwice`) | current page 4 of 4: the buttons read 1 … 1 2 3 4; page 1 of 4: 1 2 3 4 … 4 | each page number appears once, in increasing order | not executed | MembershipList.FirstPageTwice | MembershipList.ButtonsShowEachPageOnce |
| src/Pages/ProductManagement/ProductManagement.jsx:429 | the new product's second review description is `newProduct.focus`, a field the form does not have | any product added with a second review description: the new product has none, both in the POST body and in the page's cache | the typed `reviewDes2` is sent and cached | not executed | ProductManagement.SecondReviewLost | ProductManagement.NewItemKeepsForm |
