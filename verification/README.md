# Project Ledger web client — a Dafny model

Project Ledger is a web application for recording the expenses of
projects, the payment methods they are paid with, their budget categories
and the obligations (debts) they accumulate. Its web client talks to a
REST API that owns all data. This project models the client's own logic
and proves properties of it:

- **Obligations**: how much of an obligation is paid, what is left, the status
  relation the API is documented to compute, and the progress bar,
  labels and due-date text of the obligations list.
- **Create and edit forms**: for expenses, obligations, categories, payment
  methods and projects. Each form validates its fields, builds the request
  body (trimming, optional fields, explicit nulls, defaults, currency
  conversion) and resets. Each form is a class whose `form` and `errors`
  fields change in place.
- **List hooks**: for projects, payment methods, expenses, obligations and
  categories. They filter, sort and page, keep the list up to date after
  create, edit and delete, and reset the page.
- **Projects pagination**: the page count, the window of page buttons with
  ellipses, the visible range and the previous/next targets.
- **Query strings and paths**: the ones the expense, obligation and
  payment-method services send.
- **Authentication**:
  - the login and registration forms;
  - the route guard;
  - the session provider: hydration, login, register and logout;
  - the API client's token store, its request headers, its single retry
    after a 401 answer (section 15.5.2 of RFC 9110) and its error message.

JavaScript numbers are exact rationals, with NaN kept as its own case.
The browser, the network and the router are not called. What the client
would read from them is a parameter:

- a fetch's outcome;
- the stored refresh token;
- the current time;
- the locale's string comparison;
- the URL percent-encoding.

What the client would do to them is a result:

- the fetches it would issue;
- the navigation;
- the list to refetch.

Shared pieces live in `common.dfy`, `entities.dfy`, `js_number.dfy`,
`js_text.dfy` and `lists.dfy`:

- `JsText` models the string built-ins the client relies on: `trim`,
  `toLowerCase`, `includes`, `split` and UTF-16 length.
- `Lists` holds the filter, stable sort, page slice and the
  prepend/replace/remove updates, with their properties.

## Model

Some functions that compute what the source computes have no row of their own. Each is stated by the lemma beside it, whose row cites the same lines:
- `ApiClient.RequestHeaders` by `ApiClient.RequestHeadersSpec`;
- `ApiClient.ErrorMessage` by `ApiClient.ErrorMessageSpec`;
- `ApiClient.Settle` by `ApiClient.SettleSpec`;
- `AuthGuard.Redirect` and `AuthGuard.Render` by `AuthGuard.LoadingWaits`, `AuthGuard.SignedOutRedirected`, `AuthGuard.NonAdminRedirected` and `AuthGuard.ChildrenExactly`;
- `AuthErrors.SubmitError` by `AuthErrors.SubmitErrorNonEmpty`;
- `UseLogin.LoginError` by `UseLogin.LoginErrorCases`;
- `UseRegister.Validate` by `UseRegister.ValidateOrder` and `UseRegister.EightAccepted`;
- `UseRegister.RegisterError` by `UseRegister.RegisterErrorCases`;
- `ExpenseModals.CreateRequest` and `ExpenseModals.EditRequest` by `ExpenseModals.BuildRequest`, `ExpenseModals.CreateGate`, `ExpenseModals.EditGate`, `ExpenseModals.CreateRequestWellFormed` and `ExpenseModals.EditRoundTrip`;
- `ProjectsPagination.Window` by `ProjectsPagination.WindowWellFormed`.

| member | source | states |
|---|---|---|
| Entities.KindNameInjective | src/types/payment-method.ts:4 | the three payment-method types have three different wire spellings |
| Obligations.Live | src/types/obligation.ts:37-38 | the live payments are exactly the payments not marked deleted |
| Obligations.PaidAmount | src/types/obligation.ts:37-38 | the paid amount is never negative when no payment amount is |
| Obligations.PaidAmountIsLiveSum | src/types/obligation.ts:37-38 | the paid amount is the plain sum over the live payments |
| Obligations.DeletedPaymentsIgnored | src/types/obligation.ts:37-38 | appending deleted payments leaves the paid amount unchanged |
| Obligations.DeletedSumZero | src/types/obligation.ts:37-38 | payments that are all deleted add up to zero paid |
| Obligations.RemainingAmount | src/types/obligation.ts:39-40 | remaining plus paid is the total; remaining is negative exactly when the debt is overpaid |
| Obligations.NoLivePaymentsPaidZero | src/types/obligation.ts:7 | with no live payment nothing is paid |
| Obligations.PaidExactly | src/types/obligation.ts:9 | a consistent obligation is `paid` exactly when the paid amount reaches the total |
| Obligations.OverdueNeedsDueDate | src/types/obligation.ts:10 | `overdue` implies a due date before today and a positive remaining balance |
| Obligations.OpenHasNoPayments | src/types/obligation.ts:7 | `open` implies every payment is deleted, nothing paid and the whole total remaining |
| Obligations.PartiallyPaidMeans | src/types/obligation.ts:8 | `partially_paid` implies a live payment and a positive remaining balance |
| Obligations.BalanceStatus | src/types/obligation.ts:7-9 | for a positive total, a non-overdue status the definitions allow always exists, whatever the due date and day |
| Obligations.StatusesExclusive | src/types/obligation.ts:7-10 | two different allowed statuses always include `overdue`: open, partially paid and paid exclude each other |
| Obligations.OverdueNotPaid | src/types/obligation.ts:9-10 | `overdue` and `paid` are never allowed together |
| ObligationsList.AccentColor | src/components/project-detail/obligations/obligations-list.tsx:14-23 | a row's accent is one of the eight colours, chosen by the row index modulo 8 |
| ObligationsList.AccentCycles | src/components/project-detail/obligations/obligations-list.tsx:100 | rows eight apart share their accent |
| ObligationsList.Pct | src/components/project-detail/obligations/obligations-list.tsx:102-104 | the percentage never exceeds 100 and is 0 without a positive total |
| ObligationsList.PctInRange | src/components/project-detail/obligations/obligations-list.tsx:102-104 | for 0 <= paid <= total the percentage is the rounded share, in 0..100 |
| ObligationsList.PctOverpaid | src/components/project-detail/obligations/obligations-list.tsx:103 | an overpaid obligation shows exactly 100 |
| ObligationsList.PctMonotone | src/components/project-detail/obligations/obligations-list.tsx:102-104 | paying more never lowers the percentage |
| ObligationsList.DueDateLabel | src/components/project-detail/obligations/obligations-list.tsx:59-63 | a missing or empty date reads "Sin vencimiento"; any other date goes through the formatter |
| ObligationsList.StatusLabelsDistinct | src/components/project-detail/obligations/obligations-list.tsx:25-50 | the four status labels are pairwise different |
| ObligationsList.PaidShowsFull | src/components/project-detail/obligations/obligations-list.tsx:102-104 | a consistent `paid` obligation shows a full bar |
| JsNumbers.NumberOf | src/components/project-detail/expenses/expense-modals.tsx:96 | `Number(text)` of an empty input is 0, otherwise the value the text denotes |
| JsNumbers.Mul | src/components/project-detail/expenses/expense-modals.tsx:102 | the product is a number exactly when both factors are, and is then their product |
| JsNumbers.OrOne | src/components/project-detail/expenses/expense-modals.tsx:93 | `x \|\| 1` is always truthy, keeps a truthy `x` and replaces 0 and NaN by 1 |
| JsNumbers.MathRound | src/components/project-detail/obligations/obligations-list.tsx:103 | `Math.round` lies within one half of its argument, halves going up |
| JsNumbers.Cents | src/components/project-detail/expenses/expense-modals.tsx:102 | the cents `toFixed(2)` prints are within half a cent of the value and keep its sign |
| JsNumbers.Round2Real | src/components/project-detail/expenses/expense-modals.tsx:102 | `parseFloat(x.toFixed(2))` is a whole number of cents within half a cent of `x` |
| JsNumbers.Round2 | src/components/project-detail/expenses/expense-modals.tsx:102 | rounding keeps NaN and moves a number by at most half a cent |
| JsNumbers.CentsOfCents | src/components/project-detail/expenses/expense-modals.tsx:102 | an amount already in whole cents is printed unchanged |
| JsNumbers.Round2Idempotent | src/components/project-detail/expenses/expense-modals.tsx:102 | rounding an already rounded amount changes nothing |
| JsNumbers.CentsMonotone | src/components/project-detail/expenses/expense-modals.tsx:102 | rounding keeps the order of amounts |
| JsNumbers.CentsOdd | src/components/project-detail/expenses/expense-modals.tsx:102 | rounding is symmetric about zero (ties away from zero) |
| Forms.ClearError | src/components/project-detail/expenses/expense-modals.tsx:153-154 | editing a field leaves that field without a visible error and every other field's error as it was |
| Forms.Check | src/components/project-detail/expenses/expense-modals.tsx:77-81 | one check of a validator sets exactly its own key, with its message, when it fails and leaves the record alone otherwise |
| Forms.NameError | src/components/payment-methods/payment-method-modals.tsx:57-60 | the name passes exactly when its trimmed form has 1 to 255 UTF-16 code units; a blank one is "Nombre es requerido", a long one the dialog's own message |
| Forms.NameLengthLimit | src/components/projects/project-modals.tsx:41-42 | for a trimmed name of BMP characters the limit is exactly 255 characters |
| Forms.ClearNameError | src/components/payment-methods/payment-method-modals.tsx:98 | typing in the name field removes a shown name error and nothing else |
| Forms.IfTrimmed | src/components/project-detail/expenses/expense-modals.tsx:104-105 | an optional text is left out exactly when it is blank and is otherwise sent trimmed and non-empty |
| Forms.OrEmpty | src/components/project-detail/expenses/expense-modals.tsx:451-452 | `value ?? ""` keeps a present text and turns a missing one into "" |
| Forms.IfTrimmedKeeps | src/components/project-detail/expenses/expense-modals.tsx:104 | a text without surrounding whitespace is sent as it is |
| ExpenseModals.FindDefault | src/components/project-detail/expenses/expense-modals.tsx:72 | the first category flagged default, or none when no category is |
| ExpenseModals.EffectiveCategoryId | src/components/project-detail/expenses/expense-modals.tsx:71-72 | a chosen category wins; otherwise the id is "" or the id of one of the categories |
| ExpenseModals.EffectiveCategoryPrefersDefault | src/components/project-detail/expenses/expense-modals.tsx:72 | with nothing chosen, the first default category is used |
| ExpenseModals.EffectiveCategoryFallback | src/components/project-detail/expenses/expense-modals.tsx:72 | with no default category, the first category (or "") is used |
| ExpenseModals.EffectivePaymentMethodId | src/components/project-detail/expenses/expense-modals.tsx:73 | a chosen payment method wins, then the first one, then "" |
| ExpenseModals.ValidateCommon | src/components/project-detail/expenses/expense-modals.tsx:459-465 | title, amount and date each get their own message exactly when they fail, and no other field is reported |
| ExpenseModals.ValidateCreate | src/components/project-detail/expenses/expense-modals.tsx:75-83 | the five checks of the create dialog, each reported exactly when it fails, with its message |
| ExpenseModals.CreateGate | src/components/project-detail/expenses/expense-modals.tsx:87-91 | the create dialog sends exactly when title, amount, date, category and payment method all pass |
| ExpenseModals.EditGate | src/components/project-detail/expenses/expense-modals.tsx:470-474 | the edit dialog sends exactly when title, amount and date pass |
| ExpenseModals.EffectiveRate | src/components/project-detail/expenses/expense-modals.tsx:93 | the rate sent is always truthy: the typed rate, or 1 for an empty, zero or NaN rate |
| ExpenseModals.EmptyRateIsOne | src/components/project-detail/expenses/expense-modals.tsx:93 | an empty rate is sent as 1 |
| ExpenseModals.ConvertedAmount | src/components/project-detail/expenses/expense-modals.tsx:102 | the converted amount is amount times rate in whole cents, within half a cent, NaN when either is NaN |
| ExpenseModals.NumberIfGiven | src/components/project-detail/expenses/expense-modals.tsx:109-110 | an optional number is left out exactly when its input is empty |
| ExpenseModals.AltFields | src/components/project-detail/expenses/expense-modals.tsx:107-115 | without an alternative currency all three alternative fields are null; with one, the currency is sent and rate and amount are never null |
| ExpenseModals.BuildRequest | src/components/project-detail/expenses/expense-modals.tsx:93-115 | every property of the request body in terms of the form fields |
| ExpenseModals.ObligationField | src/components/project-detail/expenses/expense-modals.tsx:106 | the obligation id is left out exactly when none is chosen |
| ExpenseModals.NoneObligationIsSent | src/components/project-detail/expenses/expense-modals.tsx:106 | the value "none" is a truthy id and is sent as it is |
| ExpenseModals.CreateRequestWellFormed | src/components/project-detail/expenses/expense-modals.tsx:87-103 | an accepted create request has a trimmed non-empty title, a positive (or NaN) amount, a date, both ids and a truthy rate |
| ExpenseModals.BuildRequestWellFormed | src/components/project-detail/expenses/expense-modals.tsx:93-103 | a body built from fields that pass the gate has a trimmed non-empty title, a positive (or NaN) amount, a date, non-empty category and payment method ids and a non-zero rate |
| ExpenseModals.AltAmountAfterRate | src/components/project-detail/expenses/expense-modals.tsx:346-352 | typing a positive alternative rate with a positive converted amount fills the amount in whole cents; otherwise it is kept |
| ExpenseModals.AltAmountAutofillSent | src/components/project-detail/expenses/expense-modals.tsx:346-352 | an autofilled alternative amount is non-negative and is sent |
| ExpenseModals.AltCurrencyFromSelect | src/components/project-detail/expenses/expense-modals.tsx:322 | the "none" item means no alternative currency; any other value is taken as it is |
| ExpenseModals.FormOf | src/components/project-detail/expenses/expense-modals.tsx:443-457 | the edit form holds the expense's own values, missing optional ones as "" |
| ExpenseModals.EditRoundTrip | src/components/project-detail/expenses/expense-modals.tsx:443-497 | saving an untouched edit form sends back the expense's own values |
| ExpenseModals.CreateExpenseModal.constructor | src/components/project-detail/expenses/expense-modals.tsx:55-68 | a new dialog starts with the blank form and no errors |
| ExpenseModals.CreateExpenseModal.HandleSubmit | src/components/project-detail/expenses/expense-modals.tsx:85-118 | with errors they are shown and nothing is sent; otherwise the request is sent and the dialog reset |
| ExpenseModals.CreateExpenseModal.ResetAndClose | src/components/project-detail/expenses/expense-modals.tsx:120-135 | every field back to its initial value, no errors |
| ExpenseModals.CreateExpenseModal.ChangeTitle | src/components/project-detail/expenses/expense-modals.tsx:152-155 | the title changes and only its error is cleared |
| ExpenseModals.CreateExpenseModal.ChangeAmount | src/components/project-detail/expenses/expense-modals.tsx:173-176 | the amount changes and only its error is cleared |
| ExpenseModals.CreateExpenseModal.ChangeExpenseDate | src/components/project-detail/expenses/expense-modals.tsx:208-211 | the date changes and only its error is cleared |
| ExpenseModals.CreateExpenseModal.SelectAltCurrency | src/components/project-detail/expenses/expense-modals.tsx:322 | the alternative currency changes, errors are kept |
| ExpenseModals.CreateExpenseModal.ChangeAltExchangeRate | src/components/project-detail/expenses/expense-modals.tsx:346-352 | the rate changes and the amount is autofilled as `AltAmountAfterRate` says |
| ExpenseModals.EditExpenseModal.constructor | src/components/project-detail/expenses/expense-modals.tsx:428-441 | a new dialog is blank and not yet initialised |
| ExpenseModals.EditExpenseModal.Sync | src/components/project-detail/expenses/expense-modals.tsx:443-457 | the form is filled from the expense once, the first time one is given |
| ExpenseModals.EditExpenseModal.HandleSubmit | src/components/project-detail/expenses/expense-modals.tsx:467-500 | nothing without an expense; errors shown when validation fails; otherwise the id and request are sent and the dialog reset |
| ExpenseModals.EditExpenseModal.ResetAndClose | src/components/project-detail/expenses/expense-modals.tsx:502-518 | blank form, no errors, ready to initialise again |
| ExpenseModals.EditExpenseModal.ChangeTitle | src/components/project-detail/expenses/expense-modals.tsx:534-537 | the title changes and only its error is cleared |
| ExpenseModals.EditExpenseModal.ChangeAmount | src/components/project-detail/expenses/expense-modals.tsx:554-557 | the amount changes and only its error is cleared |
| ExpenseModals.EditExpenseModal.ChangeExpenseDate | src/components/project-detail/expenses/expense-modals.tsx:588-591 | the date changes and only its error is cleared |
| ExpenseModals.EditExpenseModal.SelectAltCurrency | src/components/project-detail/expenses/expense-modals.tsx:694-696 | the alternative currency changes through the "none" mapping; errors and the initialised flag are kept |
| ExpenseModals.EditExpenseModal.ChangeAltExchangeRate | src/components/project-detail/expenses/expense-modals.tsx:720-727 | the rate changes and the amount is autofilled |
| ObligationModals.Validate | src/components/project-detail/obligations/obligation-modals.tsx:47-52 | title and total amount each get their message exactly when they fail, and nothing else is reported |
| ObligationModals.Gate | src/components/project-detail/obligations/obligation-modals.tsx:54-60 | a request is built exactly when the title trims to something and the amount is given and not at most 0 |
| ObligationModals.CreateRequest | src/components/project-detail/obligations/obligation-modals.tsx:61-68 | trimmed title, the typed total, the currency; the due date only when set; the description only when not blank |
| ObligationModals.UpdateRequest | src/components/project-detail/obligations/obligation-modals.tsx:225-232 | like the create body, but a cleared due date is sent as null, never left out |
| ObligationModals.FormOf | src/components/project-detail/obligations/obligation-modals.tsx:202-208 | the edit form holds the obligation's title, total, and due date and description (or "") |
| ObligationModals.EditRoundTrip | src/components/project-detail/obligations/obligation-modals.tsx:202-233 | an untouched valid obligation passes validation and sends back its total and due date (null when it had none) |
| ObligationModals.CreateObligationModal.constructor | src/components/project-detail/obligations/obligation-modals.tsx:40-45 | blank form, currency CRC, no errors |
| ObligationModals.CreateObligationModal.HandleSubmit | src/components/project-detail/obligations/obligation-modals.tsx:54-71 | errors shown and nothing sent, or the request sent and the dialog reset |
| ObligationModals.CreateObligationModal.ResetAndClose | src/components/project-detail/obligations/obligation-modals.tsx:73-81 | every field back to its initial value, no errors |
| ObligationModals.CreateObligationModal.ChangeTitle | src/components/project-detail/obligations/obligation-modals.tsx:97-98 | the title changes and only its error is cleared |
| ObligationModals.CreateObligationModal.ChangeTotalAmount | src/components/project-detail/obligations/obligation-modals.tsx:118-119 | the amount changes and only its error is cleared |
| ObligationModals.EditObligationModal.constructor | src/components/project-detail/obligations/obligation-modals.tsx:195-200 | blank form, not initialised, no errors |
| ObligationModals.EditObligationModal.Sync | src/components/project-detail/obligations/obligation-modals.tsx:202-208 | the form is filled from the obligation once |
| ObligationModals.EditObligationModal.HandleSubmit | src/components/project-detail/obligations/obligation-modals.tsx:217-235 | nothing without an obligation; errors shown; or id and request sent and the dialog reset |
| ObligationModals.EditObligationModal.ResetAndClose | src/components/project-detail/obligations/obligation-modals.tsx:237-245 | blank form, not initialised, no errors |
| ObligationModals.EditObligationModal.ChangeTitle | src/components/project-detail/obligations/obligation-modals.tsx:261-262 | the title changes and only its error is cleared |
| ObligationModals.EditObligationModal.ChangeTotalAmount | src/components/project-detail/obligations/obligation-modals.tsx:279-280 | the amount changes and only its error is cleared |
| CategoryModals.Validate | src/components/project-detail/categories/category-modals.tsx:37-42 | the name is reported exactly when blank; the budget exactly when given and negative |
| CategoryModals.Gate | src/components/project-detail/categories/category-modals.tsx:44-50 | a request is built exactly when the name trims to something and the budget is empty, NaN or not negative |
| CategoryModals.CreateRequest | src/components/project-detail/categories/category-modals.tsx:52-54 | trimmed name, description only when not blank, budget only when its field has text |
| CategoryModals.UpdateRequest | src/components/project-detail/categories/category-modals.tsx:178-180 | as the create body, but an empty budget is sent as null, never left out |
| CategoryModals.ZeroBudgetSent | src/components/project-detail/categories/category-modals.tsx:40-54 | a budget of 0 passes and is sent |
| CategoryModals.FormOf | src/components/project-detail/categories/category-modals.tsx:155-160 | the edit form holds the category's name, description (or "") and budget (or "") |
| CategoryModals.EditRoundTrip | src/components/project-detail/categories/category-modals.tsx:155-181 | an untouched category sends back its budget, or null when it had none, and passes when its budget is not negative |
| CategoryModals.CreateCategoryModal.constructor | src/components/project-detail/categories/category-modals.tsx:32-35 | blank form, no errors |
| CategoryModals.CreateCategoryModal.HandleSubmit | src/components/project-detail/categories/category-modals.tsx:44-57 | errors shown and nothing sent, or the request sent and the dialog reset |
| CategoryModals.CreateCategoryModal.ResetAndClose | src/components/project-detail/categories/category-modals.tsx:59-65 | blank form, no errors |
| CategoryModals.CreateCategoryModal.ChangeName | src/components/project-detail/categories/category-modals.tsx:81-82 | the name changes and only its error is cleared |
| CategoryModals.CreateCategoryModal.ChangeBudgetAmount | src/components/project-detail/categories/category-modals.tsx:111-112 | the budget changes and only its error is cleared |
| CategoryModals.EditCategoryModal.constructor | src/components/project-detail/categories/category-modals.tsx:149-153 | blank form, not initialised, no errors |
| CategoryModals.EditCategoryModal.Sync | src/components/project-detail/categories/category-modals.tsx:155-160 | the form is filled from the category once |
| CategoryModals.EditCategoryModal.HandleSubmit | src/components/project-detail/categories/category-modals.tsx:169-183 | nothing without a category; errors shown; or id and request sent and the dialog reset |
| CategoryModals.EditCategoryModal.ResetAndClose | src/components/project-detail/categories/category-modals.tsx:185-192 | blank form, not initialised, no errors |
| CategoryModals.EditCategoryModal.ChangeName | src/components/project-detail/categories/category-modals.tsx:208-209 | the name changes and only its error is cleared |
| CategoryModals.EditCategoryModal.ChangeBudgetAmount | src/components/project-detail/categories/category-modals.tsx:237-238 | the budget changes and only its error is cleared |
| PaymentMethodModals.CreateRequest | src/components/payment-methods/payment-method-modals.tsx:63-70 | trimmed name, the type, the currency; bank name, account number and description only when not blank |
| PaymentMethodModals.UpdateRequest | src/components/payment-methods/payment-method-modals.tsx:224-227 | trimmed name and type (no currency); the optional texts as in the create body |
| PaymentMethodModals.CashStillSendsBankName | src/components/payment-methods/payment-method-modals.tsx:68 | a bank name typed before switching to cash is hidden but still sent |
| PaymentMethodModals.FormOf | src/components/payment-methods/payment-method-modals.tsx:206-213 | the edit form holds the method's name, type and optional texts (or "") |
| PaymentMethodModals.EditRoundTrip | src/components/payment-methods/payment-method-modals.tsx:206-228 | an untouched method with a trimmed name sends back its name, type and trimmed bank name |
| PaymentMethodModals.CreatePaymentMethodModal.constructor | src/components/payment-methods/payment-method-modals.tsx:47-53 | blank form, currency USD, no error |
| PaymentMethodModals.CreatePaymentMethodModal.HandleSubmit | src/components/payment-methods/payment-method-modals.tsx:55-73 | the name error shown and nothing sent, or the request sent and the dialog reset |
| PaymentMethodModals.CreatePaymentMethodModal.ResetAndClose | src/components/payment-methods/payment-method-modals.tsx:75-80 | blank form, currency USD, no error |
| PaymentMethodModals.CreatePaymentMethodModal.ChangeName | src/components/payment-methods/payment-method-modals.tsx:98 | the name changes and a shown error is removed |
| PaymentMethodModals.EditPaymentMethodModal.constructor | src/components/payment-methods/payment-method-modals.tsx:198-204 | blank form, not initialised, no error |
| PaymentMethodModals.EditPaymentMethodModal.Sync | src/components/payment-methods/payment-method-modals.tsx:206-213 | the form is filled from the method once |
| PaymentMethodModals.EditPaymentMethodModal.HandleSubmit | src/components/payment-methods/payment-method-modals.tsx:215-230 | nothing without a method; the name error shown; or id and request sent and the dialog reset |
| PaymentMethodModals.EditPaymentMethodModal.ResetAndClose | src/components/payment-methods/payment-method-modals.tsx:232-237 | blank form, not initialised, no error |
| PaymentMethodModals.EditPaymentMethodModal.ChangeName | src/components/payment-methods/payment-method-modals.tsx:260 | the name changes and a shown error is removed |
| ProjectModals.CreateRequest | src/components/projects/project-modals.tsx:51 | trimmed name, the currency, and the description trimmed (possibly "") |
| ProjectModals.UpdateRequest | src/components/projects/project-modals.tsx:167 | trimmed name and trimmed description |
| ProjectModals.SentNameWellFormed | src/components/projects/project-modals.tsx:41-51 | a sent name is non-empty, at most 255 code units and already trimmed |
| ProjectModals.FormOf | src/components/projects/project-modals.tsx:148-152 | the edit form holds the project's name and description (or "") |
| ProjectModals.CreateProjectModal.constructor | src/components/projects/project-modals.tsx:34-37 | blank form, currency USD, no error |
| ProjectModals.CreateProjectModal.HandleSubmit | src/components/projects/project-modals.tsx:39-53 | the name error shown and nothing sent, or the request sent and the dialog reset |
| ProjectModals.CreateProjectModal.ResetAndClose | src/components/projects/project-modals.tsx:55-61 | blank form, currency USD, no error |
| ProjectModals.CreateProjectModal.ChangeName | src/components/projects/project-modals.tsx:79-80 | the name changes and a shown error is removed |
| ProjectModals.EditProjectModal.constructor | src/components/projects/project-modals.tsx:142-145 | blank form, not initialised, no error |
| ProjectModals.EditProjectModal.Sync | src/components/projects/project-modals.tsx:148-152 | the form is filled from the project once |
| ProjectModals.EditProjectModal.HandleSubmit | src/components/projects/project-modals.tsx:154-169 | nothing without a project; the name error shown; or id and request sent and the dialog reset |
| ProjectModals.EditProjectModal.ResetAndClose | src/components/projects/project-modals.tsx:171-177 | blank form, not initialised, no error |
| ProjectModals.EditProjectModal.ChangeName | src/components/projects/project-modals.tsx:195-196 | the name changes and a shown error is removed |
| ProjectsPagination.TotalPages | src/components/projects/projects-pagination.tsx:19 | `Math.ceil(total / pageSize)`: the fewest pages that hold every item; 0 exactly when there are no items |
| ProjectsPagination.ShowsControlsIff | src/components/projects/projects-pagination.tsx:19-20 | the pagination bar is shown exactly when there are more items than fit on one page |
| ProjectsPagination.RangeEnd | src/components/projects/projects-pagination.tsx:23 | the caption's end is the page's last slot or the total, whichever is smaller |
| ProjectsPagination.RangeMatchesPage | src/components/projects/projects-pagination.tsx:22-23 | for a page in range, the caption "start–end" numbers exactly the items of that page's slice |
| ProjectsPagination.PrevTarget | src/components/projects/projects-pagination.tsx:49 | the previous button goes one page back, never below page 1 |
| ProjectsPagination.NextTarget | src/components/projects/projects-pagination.tsx:75 | the next button goes one page on, never past the last page |
| ProjectsPagination.PrevNextInRange | src/components/projects/projects-pagination.tsx:49-80 | both buttons stay within 1..totalPages and undo each other |
| ProjectsPagination.Run | src/components/projects/projects-pagination.tsx:34 | the counting loop yields the pages lo..hi-1 in order |
| ProjectsPagination.RunSnoc | src/components/projects/projects-pagination.tsx:34 | one more loop step appends the next page |
| ProjectsPagination.WellFormedIncreasing | src/components/projects/projects-pagination.tsx:25-39 | in a well-formed row the page numbers strictly increase |
| ProjectsPagination.FullRow | src/components/projects/projects-pagination.tsx:27-28 | with at most 7 pages every page is listed |
| ProjectsPagination.OutsideRow | src/components/projects/projects-pagination.tsx:30-36 | a current page outside 1..totalPages still gets the first and last page around one ellipsis |
| ProjectsPagination.LowRow | src/components/projects/projects-pagination.tsx:30-36 | near the start: first pages, one ellipsis, the last page |
| ProjectsPagination.HighRow | src/components/projects/projects-pagination.tsx:30-36 | near the end: the first page, one ellipsis, the last pages |
| ProjectsPagination.MiddleRow | src/components/projects/projects-pagination.tsx:30-36 | in the middle: first, ellipsis, the page and its two neighbours, ellipsis, last |
| ProjectsPagination.WindowWellFormed | src/components/projects/projects-pagination.tsx:30-36 | the row built for more than seven pages (page 1, a marker when the window starts after page 2, page−1..page+1 kept strictly inside, a marker when it ends before the second-to-last page, the last page) is well formed, at most 7 entries, and shows the current page's neighbours |
| ProjectsPagination.GetPages | src/components/projects/projects-pagination.tsx:25-39 | the row starts at 1, ends at totalPages, increases strictly, never puts two ellipses together, has at most 7 entries, lists all pages when there are at most 7, and contains the current page and its neighbours; with more than 7 pages it is exactly the windowed row of first page, markers, page−1..page+1 and last page |
| ProjectsPagination.AllPages | src/components/projects/projects-pagination.tsx:27-28 | the loop pushes exactly the pages 1 to totalPages, in order |
| ProjectsPagination.WindowPages | src/components/projects/projects-pagination.tsx:29-37 | with more than seven pages the pushes build exactly the windowed row (page 1, a marker when the window starts after page 2, page−1..page+1 kept strictly inside, a marker when it ends before the second-to-last page, the last page), which is well formed, has at most 7 entries and shows the current page and its existing neighbours |
| SortKeys.SortField | src/hooks/projects/use-projects.ts:23 | the field part of a sort key holds no colon |
| SortKeys.SortDirection | src/hooks/projects/use-projects.ts:23 | the direction part, when present, holds no colon |
| SortKeys.Multiplier | src/hooks/projects/use-projects.ts:24 | the multiplier is 1 exactly for "asc" and -1 for anything else |
| SortKeys.SortKeyOf | src/hooks/projects/use-projects.ts:23 | splitting "field:direction" gives back field and direction |
| SortKeys.DescNegatesAsc | src/hooks/projects/use-projects.ts:23-24 | "f:desc" names the same field as "f:asc" with the opposite multiplier |
| Lists.Filter | src/hooks/projects/use-projects.ts:93-94 | `filter` keeps exactly the elements that pass, each as often as before |
| Lists.FilterIsSubsequence | src/hooks/projects/use-projects.ts:93-94 | `filter` keeps the order of what it keeps |
| Lists.SubsequenceOfTail | src/hooks/projects/use-projects.ts:142 | a subsequence of the tail is a subsequence of the whole |
| Lists.SubsequenceDropFirst | src/hooks/projects/use-projects.ts:142 | dropping the first element of a subsequence leaves a subsequence |
| Lists.SubsequenceRefl | src/hooks/projects/use-projects.ts:92 | a list is a subsequence of itself |
| Lists.SubsequenceLength | src/hooks/projects/use-projects.ts:142 | a subsequence is never longer than the list |
| Lists.FilterAll | src/hooks/projects/use-projects.ts:93 | a filter everything passes changes nothing |
| Lists.FilterTwice | src/hooks/projects/use-projects.ts:93-94 | two filters in a row keep the order of the original list |
| Lists.FilterFilter | src/hooks/projects/use-projects.ts:93-94 | two filters in a row are one filter by both conditions |
| Lists.ReplaceWhere | src/hooks/projects/use-projects.ts:128 | `map(p => hit(p) ? y : p)` replaces exactly the hits and keeps length and order |
| Lists.ReplaceNothing | src/hooks/projects/use-projects.ts:128 | with no hit the list is unchanged |
| Lists.ClampIndex | src/hooks/projects/use-projects.ts:101 | `slice` clamps an index into 0..length, counting negative ones from the end |
| Lists.Slice | src/hooks/projects/use-projects.ts:101 | `slice(start, end)` is the run between the clamped indices, or empty |
| Lists.PageSlice | src/hooks/projects/use-projects.ts:100-103 | a page slice holds at most pageSize items starting at the page's first index, empty past the end |
| Lists.Page | src/hooks/projects/use-projects.ts:100-103 | page `page` of the list: at most pageSize items, exactly the list's run from index (page-1)*pageSize |
| Lists.PageFirst | src/hooks/projects/use-projects.ts:100-104 | a page that starts inside the list begins with the item at its first index, `(page - 1) * pageSize` |
| Lists.Insert | src/hooks/projects/use-projects.ts:95 | one insertion step of the stable sort adds exactly one element |
| Lists.SortBy | src/hooks/projects/use-projects.ts:95 | `[...result].sort(cmp)` is a permutation of its input |
| Lists.SameElements | src/hooks/projects/use-projects.ts:95 | a permutation has the same members |
| Lists.InsertSorted | src/hooks/projects/use-projects.ts:95 | inserting into a sorted list keeps it sorted |
| Lists.SortBySorted | src/hooks/projects/use-projects.ts:95 | with an antisymmetric comparator the sorted list has no neighbours out of order |
| Lists.SortByAllEqual | src/hooks/projects/use-projects.ts:95 | a comparator that calls everything equal leaves the order alone (stability) |
| Lists.InsertAtEnd | src/hooks/projects/use-projects.ts:95 | an element no smaller than all others is placed last |
| UseProjects.MatchesQueryCaseless | src/hooks/projects/use-projects.ts:13-20 | the search ignores the case of the query, and every item is found by its own name |
| UseProjects.CompareAntisymmetric | src/hooks/projects/use-projects.ts:22-31 | with a consistent collation the comparator is antisymmetric in sign, for every sort key |
| UseProjects.DescReversesAsc | src/hooks/projects/use-projects.ts:22-31 | the descending order of a field is the ascending one reversed |
| UseProjects.ProjectsState.constructor | src/hooks/projects/use-projects.ts:37-48 | the list starts empty and loading, on page 1 of the default size, with no search, filter "all" and sort "updatedAt:desc" |
| UseProjects.ProjectsState.FilteredExactly | src/hooks/projects/use-projects.ts:91-97 | the filtered list holds exactly the items matching the debounced query and the currency filter, with their multiplicities |
| UseProjects.ProjectsState.Total | src/hooks/projects/use-projects.ts:99 | the total counts the filtered items and never exceeds the loaded ones |
| UseProjects.ProjectsState.FilteredCount | src/hooks/projects/use-projects.ts:99 | no more items pass than were loaded |
| UseProjects.ProjectsState.GlobalIndex | src/hooks/projects/use-projects.ts:104 | the page's first position, one less than the pagination caption's start |
| UseProjects.ProjectsState.HasSearch | src/hooks/projects/use-projects.ts:105 | a search is active if and only if the debounced query is non-empty or the filter is not "all" |
| UseProjects.ProjectsState.NoSearchShowsAll | src/hooks/projects/use-projects.ts:91-97 | without a search the filtered list is a reordering of all items |
| UseProjects.ProjectsState.FilteredSorted | src/hooks/projects/use-projects.ts:91-97 | with a consistent collation the filtered list is ordered by the sort key |
| UseProjects.ProjectsState.FetchStarted | src/hooks/projects/use-projects.ts:57-60 | a fetch clears the shown error before it is awaited; the list, loading and the search state are unchanged |
| UseProjects.ProjectsState.FetchSettled | src/hooks/projects/use-projects.ts:57-69 | a successful load replaces the list and clears the error; a failure keeps the list and shows the message; loading ends either way |
| UseProjects.ProjectsState.SetQuery | src/hooks/projects/use-projects.ts:182 | typing changes only the query |
| UseProjects.ProjectsState.DebounceFired | src/hooks/projects/use-projects.ts:78-87 | the debounced query catches up and the page goes back to 1 |
| UseProjects.ProjectsState.CreateSettled | src/hooks/projects/use-projects.ts:109-122 | a created item goes first and the page back to 1; a failure changes nothing |
| UseProjects.ProjectsState.EditSettled | src/hooks/projects/use-projects.ts:124-136 | an update replaces exactly the items with that id, in place; a failure changes nothing |
| UseProjects.ProjectsState.DeleteSettled | src/hooks/projects/use-projects.ts:138-150 | a deletion removes exactly the items with that id and keeps every other item, each as often as before and in order; a failure changes nothing |
| UseProjects.ProjectsState.SetPage | src/hooks/projects/use-projects.ts:180 | only the page changes |
| UseProjects.ProjectsState.PageSizeChanged | src/hooks/projects/use-projects.ts:154-157 | a new page size goes back to page 1 |
| UseProjects.ProjectsState.CurrencyChanged | src/hooks/projects/use-projects.ts:159-162 | a new currency filter goes back to page 1 |
| UseProjects.ProjectsState.SortChanged | src/hooks/projects/use-projects.ts:164-167 | a new sort key goes back to page 1 |
| UsePaymentMethods.MatchesQueryCaseless | src/hooks/payment-methods/use-payment-methods.ts:17-25 | the search ignores the case of the query, and every item is found by its own name |
| UsePaymentMethods.CompareAntisymmetric | src/hooks/payment-methods/use-payment-methods.ts:27-35 | with a consistent collation the comparator is antisymmetric in sign, for every sort key |
| UsePaymentMethods.DescReversesAsc | src/hooks/payment-methods/use-payment-methods.ts:27-35 | the descending order of a field is the ascending one reversed |
| UsePaymentMethods.PaymentMethodsState.constructor | src/hooks/payment-methods/use-payment-methods.ts:40-51 | the list starts empty and loading, on page 1 of the default size, with no search, filter "all" and sort "updatedAt:desc" |
| UsePaymentMethods.PaymentMethodsState.FilteredExactly | src/hooks/payment-methods/use-payment-methods.ts:90-96 | the filtered list holds exactly the items matching the debounced query and the type filter, with their multiplicities |
| UsePaymentMethods.PaymentMethodsState.Total | src/hooks/payment-methods/use-payment-methods.ts:98 | the total counts the filtered items and never exceeds the loaded ones |
| UsePaymentMethods.PaymentMethodsState.FilteredCount | src/hooks/payment-methods/use-payment-methods.ts:98 | no more items pass than were loaded |
| UsePaymentMethods.PaymentMethodsState.GlobalIndex | src/hooks/payment-methods/use-payment-methods.ts:103 | the first position of a page numbered from 1 is never negative |
| UsePaymentMethods.PaymentMethodsState.HasSearch | src/hooks/payment-methods/use-payment-methods.ts:104 | a search is active if and only if the debounced query is non-empty or the filter is not "all" |
| UsePaymentMethods.PaymentMethodsState.NoSearchShowsAll | src/hooks/payment-methods/use-payment-methods.ts:90-96 | without a search the filtered list is a reordering of all items |
| UsePaymentMethods.PaymentMethodsState.FilteredSorted | src/hooks/payment-methods/use-payment-methods.ts:90-96 | with a consistent collation the filtered list is ordered by the sort key |
| UsePaymentMethods.PaymentMethodsState.FetchStarted | src/hooks/payment-methods/use-payment-methods.ts:60-63 | a fetch clears the shown error before it is awaited; the list, loading and the search state are unchanged |
| UsePaymentMethods.PaymentMethodsState.FetchSettled | src/hooks/payment-methods/use-payment-methods.ts:60-72 | a successful load replaces the list and clears the error; a failure keeps the list and shows the message; loading ends either way |
| UsePaymentMethods.PaymentMethodsState.SetQuery | src/hooks/payment-methods/use-payment-methods.ts:156 | typing changes only the query |
| UsePaymentMethods.PaymentMethodsState.DebounceFired | src/hooks/payment-methods/use-payment-methods.ts:79-86 | the debounced query catches up and the page goes back to 1 |
| UsePaymentMethods.PaymentMethodsState.CreateSettled | src/hooks/payment-methods/use-payment-methods.ts:108-118 | a created item goes first and the page back to 1; a failure changes nothing |
| UsePaymentMethods.PaymentMethodsState.EditSettled | src/hooks/payment-methods/use-payment-methods.ts:120-129 | an update replaces exactly the items with that id, in place; a failure changes nothing |
| UsePaymentMethods.PaymentMethodsState.DeleteSettled | src/hooks/payment-methods/use-payment-methods.ts:131-140 | a deletion removes exactly the items with that id and keeps every other item, each as often as before and in order; a failure changes nothing |
| UsePaymentMethods.PaymentMethodsState.SetPage | src/hooks/payment-methods/use-payment-methods.ts:154 | only the page changes |
| UsePaymentMethods.PaymentMethodsState.PageSizeChanged | src/hooks/payment-methods/use-payment-methods.ts:142 | a new page size goes back to page 1 |
| UsePaymentMethods.PaymentMethodsState.TypeFilterChanged | src/hooks/payment-methods/use-payment-methods.ts:144 | a new type filter goes back to page 1 |
| UsePaymentMethods.PaymentMethodsState.SortChanged | src/hooks/payment-methods/use-payment-methods.ts:143 | a new sort key goes back to page 1 |
| QueryParams.Lookup | src/services/expense-service.ts:26 | `get(name)` finds nothing exactly when no entry has that name, and otherwise a value stored under it |
| QueryParams.RemoveKey | src/services/expense-service.ts:26 | removing a name leaves no entry with it and every other name's value as it was |
| QueryParams.SetEntry | src/services/expense-service.ts:26-31 | `set(name, value)` makes `value` the name's value, leaves every other name alone, and appends when the name was new |
| QueryParams.Pair | src/services/expense-service.ts:33 | every serialised pair holds a "=" |
| QueryParams.Pairs | src/services/expense-service.ts:33 | one serialised pair per entry, in order |
| QueryParams.SerializeEmpty | src/services/expense-service.ts:33-36 | the query string is empty exactly when no parameter was set |
| QueryParams.WithQuery | src/services/expense-service.ts:34-36 | an empty query string leaves the path alone; otherwise "?" and the query string are appended |
| QueryParams.SearchParams.constructor | src/services/expense-service.ts:25 | a new query holds no entries |
| QueryParams.SearchParams.Set | src/services/expense-service.ts:26 | the entries become `SetEntry` of the old ones |
| QueryParams.EntryIf | src/services/expense-service.ts:26-29 | a conditional `set` contributes its one entry when the condition holds and nothing otherwise |
| QueryParams.OrderAppend | src/services/expense-service.ts:26-31 | two runs of parameters in the fixed order, one after the other, stay in that order |
| QueryParams.EntryIfRank | src/services/expense-service.ts:26-29 | a single conditional parameter is in order and ranks below the next one |
| QueryParams.ListEntriesMembers | src/services/expense-service.ts:26-29 | `page` and `pageSize` are sent exactly when defined, `sortBy` and `sortDirection` exactly when non-empty, each with its value |
| QueryParams.ListEntriesOrder | src/services/expense-service.ts:26-29 | at most four parameters, always in the order page, pageSize, sortBy, sortDirection |
| QueryParams.WithQueryShape | src/services/expense-service.ts:33-36 | the URL starts with the path, equals it exactly when nothing is sent, and otherwise continues with "?" and the query string |
| QueryParams.EntryIfUnnamed | src/services/expense-service.ts:26-29 | a conditional parameter never uses another name |
| QueryParams.UnnamedAppend | src/services/expense-service.ts:26-31 | a name absent from two runs is absent from both together |
| QueryParams.SetIf | src/services/expense-service.ts:26-29 | `if (present) query.set(name, value)` on a new name appends exactly `EntryIf` |
| QueryParams.SetPaging | src/services/expense-service.ts:26-27 | the two paging sets on a fresh query give the paging entries |
| QueryParams.SetSorting | src/services/expense-service.ts:28-29 | the two sorting sets append the sorting entries |
| QueryParams.SetListParams | src/services/obligation-service.ts:23-27 | the four conditional sets on a fresh query give exactly the list entries |
| QueryParams.PagingUnnamed | src/services/expense-service.ts:26-27 | the paging entries use no name but page and pageSize |
| QueryParams.ListEntriesEmpty | src/services/expense-service.ts:26-29 | nothing is sent exactly when page and pageSize are undefined and both sort parts are empty or missing |
| QueryParams.ServerListQuerySends | src/hooks/projects/use-project-expenses.ts:40-46 | the paged hooks always send page and pageSize, and the two halves of "field:direction" as sortBy and sortDirection when non-empty |
| ExpenseService.GetExpensesUrl | src/services/expense-service.ts:24-36 | the expenses URL is the collection path followed by the serialised list and `includeDeleted` parameters |
| ExpenseService.ExpenseEntriesSpec | src/services/expense-service.ts:30-31 | `includeDeleted` is sent exactly when defined, as "true" or "false", after the list parameters, which are all kept, at most five in order |
| ExpenseService.ExpensesUrlShape | src/services/expense-service.ts:33-36 | the URL starts with the collection path and has no query exactly when no parameter is defined |
| ExpenseService.ExpensePathInjective | src/services/expense-service.ts:42 | an item path is the collection path, "/" and the id; distinct ids give distinct paths |
| ObligationService.GetObligationsUrl | src/services/obligation-service.ts:22-32 | the obligations URL is the collection path followed by the serialised list parameters |
| ObligationService.ObligationsUrlShape | src/services/obligation-service.ts:29-32 | the URL starts with the collection path and has no query exactly when nothing is sent |
| ObligationService.ObligationPathInjective | src/services/obligation-service.ts:38 | an item path is the collection path, "/" and the id; distinct ids give distinct paths |
| PaymentMethodService.GetPaymentMethodExpensesUrl | src/services/payment-method-service.ts:42-55 | the payment method's expenses URL is its path followed by the serialised list parameters |
| PaymentMethodService.PaymentMethodExpensesUrlShape | src/services/payment-method-service.ts:52-55 | the URL always begins with the payment method's own path followed by "/expenses"; it equals that path exactly when no parameter is sent, and otherwise continues with "?" |
| PaymentMethodService.PaymentMethodPathInjective | src/services/payment-method-service.ts:18 | an item path is "/payment-methods/" and the id; distinct ids give distinct paths |
| UseProjectExpenses.FilterExpenses | src/hooks/projects/use-project-expenses.ts:74-84 | the visible expenses are exactly those whose title contains the query (ignoring case) and whose category is the selected one, each as often as in the fetched page and in their order |
| UseProjectExpenses.FilterExpensesSubsequence | src/hooks/projects/use-project-expenses.ts:74-84 | what is left is a subsequence of the fetched page, and with both a query and a category the two filters in a row are one filter by both conditions |
| UseProjectExpenses.ExpensesState.constructor | src/hooks/projects/use-project-expenses.ts:16-28 | no expenses, total 0, loading, page 1 of 10, sort "expenseDate:desc", no search and no category |
| UseProjectExpenses.ExpensesState.NoSearchShowsPage | src/hooks/projects/use-project-expenses.ts:147-148 | without a search the fetched page is shown as it is and the total is the server's count |
| UseProjectExpenses.ExpensesState.SearchCountsVisible | src/hooks/projects/use-project-expenses.ts:147-148 | with a search the total counts only the visible expenses of the page |
| UseProjectExpenses.ExpensesState.FetchStarted | src/hooks/projects/use-project-expenses.ts:37-59 | a fetch raises loading and asks for the current page, size and sort; nothing else changes |
| UseProjectExpenses.ExpensesState.FetchSettled | src/hooks/projects/use-project-expenses.ts:37-55 | a successful fetch replaces the page and the server's count; a failure keeps both; loading ends either way |
| UseProjectExpenses.ExpensesState.CreateSettled | src/hooks/projects/use-project-expenses.ts:90-102 | the list is fetched again exactly when the creation succeeded |
| UseProjectExpenses.ExpensesState.EditSettled | src/hooks/projects/use-project-expenses.ts:104-116 | an update replaces exactly the expenses with that id, in place; a failure changes nothing |
| UseProjectExpenses.ExpensesState.DeleteSettled | src/hooks/projects/use-project-expenses.ts:118-132 | the list is fetched again exactly when the deletion succeeded |
| UseProjectExpenses.ExpensesState.SetPage | src/hooks/projects/use-project-expenses.ts:151 | only the page changes; the fetch runs again exactly when the page differs |
| UseProjectExpenses.ExpensesState.PageSizeChanged | src/hooks/projects/use-project-expenses.ts:136-139 | a new page size goes back to page 1; the fetch runs again exactly when the size or the page changed |
| UseProjectExpenses.ExpensesState.SortChanged | src/hooks/projects/use-project-expenses.ts:141-144 | a new sort key goes back to page 1; the fetch runs again exactly when the sort or the page changed |
| UseProjectExpenses.ExpensesState.SetQuery | src/hooks/projects/use-project-expenses.ts:153 | typing changes only the query |
| UseProjectExpenses.ExpensesState.DebounceFired | src/hooks/projects/use-project-expenses.ts:64-70 | the debounced query catches up; the page is not reset |
| UseProjectExpenses.ExpensesState.SetCategory | src/hooks/projects/use-project-expenses.ts:154 | only the selected category changes; the page is not reset |
| UseProjectObligations.FilterObligations | src/hooks/projects/use-project-obligations.ts:60-63 | "all" shows every obligation; a status shows exactly those with it, each as often as fetched and in their order |
| UseProjectObligations.ObligationsState.constructor | src/hooks/projects/use-project-obligations.ts:17-25 | no obligations, total 0, loading, page 1 of the default size, sort "dueDate:asc", filter "all" |
| UseProjectObligations.ObligationsState.NoFilterShowsPage | src/hooks/projects/use-project-obligations.ts:141 | without a status filter the fetched page is shown as it is and the total is the server's count |
| UseProjectObligations.ObligationsState.FilterCountsVisible | src/hooks/projects/use-project-obligations.ts:141 | with a status filter the total counts only the visible obligations of the page |
| UseProjectObligations.ObligationsState.FetchStarted | src/hooks/projects/use-project-obligations.ts:34-56 | a fetch raises loading and asks for the current page, size and sort; nothing else changes |
| UseProjectObligations.ObligationsState.FetchSettled | src/hooks/projects/use-project-obligations.ts:34-52 | a successful fetch replaces the page and the server's count; a failure keeps both; loading ends either way |
| UseProjectObligations.ObligationsState.CreateSettled | src/hooks/projects/use-project-obligations.ts:69-81 | the list is fetched again exactly when the creation succeeded |
| UseProjectObligations.ObligationsState.EditSettled | src/hooks/projects/use-project-obligations.ts:83-101 | an update replaces exactly the obligations with that id, in place; a failure changes nothing |
| UseProjectObligations.ObligationsState.DeleteSettled | src/hooks/projects/use-project-obligations.ts:103-117 | the list is fetched again exactly when the deletion succeeded |
| UseProjectObligations.ObligationsState.SetPage | src/hooks/projects/use-project-obligations.ts:144 | only the page changes; the fetch runs again exactly when the page differs |
| UseProjectObligations.ObligationsState.PageSizeChanged | src/hooks/projects/use-project-obligations.ts:121-124 | a new page size goes back to page 1; the fetch runs again exactly when the size or the page changed |
| UseProjectObligations.ObligationsState.SortChanged | src/hooks/projects/use-project-obligations.ts:126-129 | a new sort key goes back to page 1; the fetch runs again exactly when the sort or the page changed |
| UseProjectObligations.ObligationsState.StatusFilterChanged | src/hooks/projects/use-project-obligations.ts:131-137 | a new status filter goes back to page 1; the filter is local, so the fetch runs again only when the page changed |
| UseProjectCategories.FilterCategories | src/hooks/projects/use-project-categories.ts:60-64 | an empty query shows every category; otherwise exactly those whose name contains it, ignoring case, each as often as fetched and in their order |
| UseProjectCategories.FoundByOwnName | src/hooks/projects/use-project-categories.ts:60-64 | searching for a category's name, in any case, finds it |
| UseProjectCategories.CategoriesState.constructor | src/hooks/projects/use-project-categories.ts:16-21 | no categories, loading, no search |
| UseProjectCategories.CategoriesState.Total | src/hooks/projects/use-project-categories.ts:120 | the total counts every loaded category, never fewer than are visible |
| UseProjectCategories.CategoriesState.FetchStarted | src/hooks/projects/use-project-categories.ts:30-32 | a fetch (on mount or through `refetch`) raises loading; the list and the search are unchanged |
| UseProjectCategories.CategoriesState.FetchSettled | src/hooks/projects/use-project-categories.ts:30-41 | a successful fetch replaces the list; a failure keeps it; loading ends either way |
| UseProjectCategories.CategoriesState.CreateSettled | src/hooks/projects/use-project-categories.ts:70-84 | a created category goes last, and is visible exactly when there is no search or its name matches |
| UseProjectCategories.CategoriesState.EditSettled | src/hooks/projects/use-project-categories.ts:86-100 | an update replaces exactly the categories with that id, in place; a failure changes nothing |
| UseProjectCategories.CategoriesState.DeleteSettled | src/hooks/projects/use-project-categories.ts:102-116 | a deletion removes exactly the categories with that id and keeps every other category, each as often as before and in order |
| UseProjectCategories.CategoriesState.SetQuery | src/hooks/projects/use-project-categories.ts:123 | typing changes only the query |
| UseProjectCategories.CategoriesState.DebounceFired | src/hooks/projects/use-project-categories.ts:50-56 | the debounced query catches up with the query |
| AuthContext.UseAuth | src/context/auth-context.tsx:171-176 | outside a provider the hook fails with the "must be used within an AuthProvider" error; inside, it yields the provider's value unchanged |
| AuthContext.AuthSession.constructor | src/context/auth-context.tsx:55-57 | a new session has no user, is hydrating, and has no action in progress |
| AuthContext.AuthSession.PersistSession | src/context/auth-context.tsx:88-95 | after an auth response the access token is held, the refresh token is stored (only when non-empty and in a browser) and the response's user is signed in; the loading flags are untouched |
| AuthContext.AuthSession.Hydrate | src/context/auth-context.tsx:61-80 | the refresh endpoint is called exactly when a non-empty refresh token is stored; its success signs the returned user in with the new tokens, its failure clears both tokens and the user; hydration always ends with loading off |
| AuthContext.AuthSession.ActionStarted | src/context/auth-context.tsx:101 | starting a login or registration raises the action-loading flag and changes nothing else |
| AuthContext.AuthSession.ActionSettled | src/context/auth-context.tsx:102-107 | a settled login or registration always clears the action-loading flag; success persists the returned session, failure rethrows the same error and leaves user and tokens as they were |
| AuthContext.AuthSession.Logout | src/context/auth-context.tsx:125-137 | revocation is requested exactly when a refresh token is stored; whatever it answers, the user is signed out and both tokens are gone |
| AuthContext.AuthSession.LogoutAll | src/context/auth-context.tsx:139-148 | whatever revoking all sessions answers, the user is signed out and both tokens are gone |
| AuthGuard.RequireAdminDefault | src/components/auth/auth-guard.tsx:26 | a guard without the admin flag lets any signed-in user through once loading is over |
| AuthGuard.LoadingWaits | src/components/auth/auth-guard.tsx:30-31 | while the session hydrates the guard neither redirects nor shows the children, only the spinner |
| AuthGuard.SignedOutRedirected | src/components/auth/auth-guard.tsx:33-36 | a signed-out visitor is sent to /login by replacement and never sees the children |
| AuthGuard.NonAdminRedirected | src/components/auth/auth-guard.tsx:38-40 | on an admin route a signed-in non-administrator is sent to /dashboard and the guard renders nothing |
| AuthGuard.ChildrenExactly | src/components/auth/auth-guard.tsx:44-60 | the children render if and only if loading is over, a user is signed in and the route needs no administrator or the user is one; when they render no redirect happens, and no redirect happens otherwise except while loading |
| AuthErrors.SubmitErrorNonEmpty | src/hooks/auth/use-login.ts:50-61 | the error a failed submission shows is never empty |
| UseLogin.LoginErrorCases | src/hooks/auth/use-login.ts:50-61 | a 401 shows the wrong-credentials text, a 429 the too-many-attempts text, any other API status the server's message or the generic sign-in text when it is empty, and a non-API error the connection text |
| UseLogin.Validate | src/hooks/auth/use-login.ts:41-45 | the form passes if and only if both email and password are non-empty; otherwise the all-fields-required text is shown |
| UseLogin.LoginState.constructor | src/hooks/auth/use-login.ts:21-23 | the form starts empty, with no error and the password hidden |
| UseLogin.LoginState.HandleChange | src/hooks/auth/use-login.ts:26-29 | typing updates only the edited field and clears the error |
| UseLogin.LoginState.TogglePassword | src/hooks/auth/use-login.ts:32-34 | the password visibility flips and nothing else changes |
| UseLogin.LoginState.HandleSubmit | src/hooks/auth/use-login.ts:37-63 | login is called exactly when validation passes; success navigates to /dashboard with no error, failure stays and shows the mapped error; navigation happens only after a successful login |
| UseRegister.ValidateOrder | src/hooks/auth/use-register.ts:49-62 | the form passes exactly when all four fields are filled, the password has at least 8 characters and the confirmation matches; a missing field is reported first, then length, then mismatch |
| UseRegister.EightAccepted | src/hooks/auth/use-register.ts:54-57 | any filled form whose password has 8 UTF-16 code units or more and is repeated in the confirmation passes |
| UseRegister.RegisterErrorCases | src/hooks/auth/use-register.ts:67-78 | a 409 shows the account-exists text, a 429 the too-many-attempts text, any other API status the server's message or the generic registration text, and a non-API error the connection text |
| UseRegister.RegisterState.constructor | src/hooks/auth/use-register.ts:23-30 | the form starts with four empty fields, no error and the password hidden |
| UseRegister.RegisterState.HandleChange | src/hooks/auth/use-register.ts:33-36 | typing updates only the edited field and clears the error |
| UseRegister.RegisterState.TogglePassword | src/hooks/auth/use-register.ts:39-41 | the password visibility flips and nothing else changes |
| UseRegister.RegisterState.HandleSubmit | src/hooks/auth/use-register.ts:44-80 | registration is called exactly when validation passes, otherwise the first validation error is shown; success navigates to /dashboard, failure stays with the mapped error |
| ApiClient.Serialized | src/lib/api-client.ts:174 | a body is sent if and only if the body argument is truthy |
| ApiClient.RequestHeadersSpec | src/lib/api-client.ts:157-164 | Content-Type defaults to JSON unless the caller overrides it; the caller's other headers are kept; the bearer token is attached exactly when auth is not skipped and a non-empty token is held; no other header appears |
| ApiClient.ErrorMessageSpec | src/lib/api-client.ts:142-144 | the error carries the body's message when there is one; otherwise a non-empty text that names the status, so different statuses give different texts |
| ApiClient.SettleSpec | src/lib/api-client.ts:203-220 | a request succeeds exactly when its last response has a 2xx status, and then yields that response's body; any other status fails with that status and its error message |
| ApiClient.Client.constructor | src/lib/api-client.ts:16-29 | the client starts with no access token and whatever refresh token the browser had stored |
| ApiClient.Client.SetAccessToken | src/lib/api-client.ts:18-20 | the in-memory access token becomes the given one; storage is untouched |
| ApiClient.Client.SetRefreshToken | src/lib/api-client.ts:31-38 | in a browser a non-empty token is stored and an empty or missing one removes the stored token; outside a browser nothing changes |
| ApiClient.Client.ClearTokens | src/lib/api-client.ts:40-43 | afterwards no access token is held and no refresh token can be read |
| ApiClient.Client.AttemptTokenRefresh | src/lib/api-client.ts:91-124 | the refresh endpoint is called exactly when a non-empty refresh token is stored; success stores both new tokens and reports true, failure clears both and reports false; without a token nothing changes |
| ApiClient.Client.Request | src/lib/api-client.ts:149-221 | the first fetch goes to base URL plus path with the computed headers and serialised body; a refresh succeeds, and a second fetch happens, if and only if the first answered 401, auth was not skipped, a truthy refresh token was stored and the refresh call succeeded; the retry repeats the first fetch with the new bearer token; the result settles the last fetch; on that 401 path a successful refresh stores both new tokens and a failed one clears both; otherwise the tokens are unchanged |

## Left out

- Network I/O, `localStorage`, `performance.now` timing, the development request logger, and JSON and content-type parsing of responses. A fetch is its parsed outcome, passed in as a parameter.
- The lock that makes simultaneous token refreshes share one refresh call. The model follows a single request at a time, so no interleaving of requests is captured.
- Toast notifications, router calls and the debounce timer of the search boxes. Navigation is returned as a value, and a debounced query is an event that sets the field.
- Rendering beyond the labels, texts and decisions named in the table. Dialog open/close state and the projects view mode (grid or table) are UI only.
- Infinity and IEEE rounding error. Numbers are exact rationals, and `Number(text)` parsing is represented by its result.
- `Intl`/`toLocaleString` date and currency formatting, apart from the null due-date text.
- Case mapping beyond ASCII and Latin-1 in `toLowerCase`. Locale-aware comparison is an abstract parameter, so collation order itself is not modelled.
- The project, category and auth services, and the delete dialogs. They only forward to the API client or confirm; the list updates that follow a delete are modelled in the hooks.
- UsePaymentMethods.PaymentMethodsState.GlobalIndex: states only that the index is non-negative. That a page begins at the element with this index is proved once for any list, as Lists.PageFirst, and not restated per hook.
- UseProjects.ProjectsState.GlobalIndex: ties the index to the pagination caption's start, but that the paged list begins at this index is likewise left to Lists.PageFirst.
- The request sent to `/auth/refresh` (a POST whose JSON body carries the stored refresh token). ApiClient.Client.AttemptTokenRefresh returns only whether that call was made, and its answer is a parameter.
- Lists.SortBy: its stability (`Array.prototype.sort` keeps equal elements in input order) is stated only for a comparator that finds every pair equal, as Lists.SortByAllEqual. The general statement needs the comparator to be a consistent total preorder, which the collation parameter is not required to be.
- A priority among obligation statuses. The API computes the status, and its documented meaning is modelled as a relation, so no priority between `overdue` and `open`/`partially_paid` is chosen.
