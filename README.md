# Banking back office: transaction workflow and savings interest, in Dafny

This project models the core of a small banking back office. It covers two parts.

- **The transaction workflow.** A customer asks for a deposit, a withdrawal, a loan or a loan repayment. Each request becomes a pending `Transaction` record. Later a reviewer approves it, rejects it, or recommends approval or rejection. The decision updates the customer's `saving_balance` and `loan_balance` and the transaction's `status` in place.
- **The annual savings-interest rule.** Interest is credited at most once per calendar year, for the whole years since the last accrual (or since the account was opened). The rule has two call sites, the interest service at 12% and the customer controller at 7.5%. Registration of a customer, with its field rules and zero opening balances, is part of the model too.

Money is exact (`real`): there is no float or decimal rounding. Dates are abstract. An interest call gets the current year and the number of whole years elapsed. The year of the last accrual is kept on the customer. A loan application gets the age, in whole months, of each of the user's transactions.

Modules, one per component:

- `Basics`: `Option`, `Result`, and ASCII lower-casing.
- `Schema`: record shapes and enum values from the two migrations, with their stored spellings.
- `Customers`: registration, the `Customer` class, and the controller's interest endpoint.
- `Accrual`: the interest rule as a function.
- `InterestService`: the service's interest endpoint.
- `Requests`: the guard chains that create transactions.
- `Transactions`: the `Transaction` class, the creation endpoints, the decision specification `Decide` and the in-place decision methods.
- `Corrections`: corrected decisions for the two defects under Findings.
- `Scenarios`: concrete runs through the in-place methods.

The source's state changes are methods on classes. `Customer` has mutable `saving`, `loan` and `lastAccrual`. `Transaction` has a mutable `status`. Each such method is proved against a pure function: `Decide` for decisions, `Accrue` for interest. The properties are proved about those functions.

In these four places the model follows what the code does, where one might expect otherwise:

- Re-deciding an approved or rejected transaction is not refused; the balance change is applied again.
- The decision-time withdrawal check compares the balance with the signed stored amount.
- A loan is refused only when `loan_balance < 0`, not whenever it is non-zero.
- With zero elapsed years the accrual date is still stamped; this is not a no-op.

The first two are also reported under Findings, with corrected variants beside the faithful ones.

## Model

| member | source | states |
|---|---|---|
| `Basics.LowerChar` | app/Http/Controllers/TransactionController.php:317 | the result is never an upper-case ASCII letter; upper-case letters move by 32 code points, everything else is kept |
| `Basics.Lower` | app/Http/Controllers/TransactionController.php:317 | lower-casing keeps the length and lower-cases each character independently |
| `Basics.LowerFixesLowercase` | app/Http/Controllers/TransactionController.php:317 | a string without upper-case ASCII letters is unchanged by lower-casing |
| `Basics.LowerIdempotent` | app/Http/Controllers/TransactionController.php:317 | lower-casing twice equals lower-casing once |
| `Schema.ParseAction` | app/Http/Controllers/TransactionController.php:317-322 | an action is accepted exactly when its lower-cased form is one of the four action names, and it then denotes the action of that name |
| `Schema.ParseActionName` | app/Http/Controllers/TransactionController.php:320 | each action's own name is accepted as that action (round trip) |
| `Schema.ParseActionIgnoresCase` | app/Http/Controllers/TransactionController.php:317 | the action check gives the same answer for a string and its lower-cased form |
| `Schema.NoStatusIsAnAction` | app/Http/Controllers/TransactionController.php:459-477 | no stored status spelling is an accepted action: recommendations are stored with a space, actions use a hyphen |
| `Schema.ParseType` | app/Http/Controllers/TransactionController.php:340-356 | a stored type string dispatches to the type of that name; a string that names no type has no type (the default branch) |
| `Schema.ParseTypeName` | database/migrations/2024_11_22_155338_create_transactions_table.php:18 | every stored type name dispatches back to its own type |
| `Schema.ParseBureau` | app/Http/Controllers/CustomerController.php:29 | a bureau string is accepted exactly when it is one of the five bureau names, and then denotes that bureau |
| `Schema.ParseRegisteredSex` | app/Http/Controllers/CustomerController.php:26 | only "male" and "female" are accepted, "male" as male and "female" as female, so the stored spelling is the one sent; the column's third value "other" never results |
| `Customers.InvalidFields` | app/Http/Controllers/CustomerController.php:25-29 | a field is reported exactly when its own rule fails |
| `Customers.Register` | app/Http/Controllers/CustomerController.php:20-60 | for a request that sends all four fields (null included), refused exactly when some rule fails (age 25..100, sex male/female, salary null or 500..1,000,000, bureau null or listed), with every failing field; otherwise the balances are 0, there is no accrual date, and the profile satisfies the rules and keeps the requested age, sex, salary and bureau |
| `Customers.RegisterFormOf` | app/Http/Controllers/CustomerController.php:25-60 | every profile that satisfies the rules is what registering its own request yields, with the opening ledger |
| `Customers.RegisterCustomer` | app/Http/Controllers/CustomerController.php:16-66 | a refused request creates nothing; an accepted one creates a fresh customer whose ledger is the opening ledger |
| `Customers.Customer.AccrueInterest` | app/Http/Controllers/CustomerController.php:238-258 | the new ledger is `Accrue` of the old one at the given rate, and it reports whether interest was due; the profile is not written |
| `Customers.CalculateSavingsInterest` | app/Http/Controllers/CustomerController.php:224-272 | a missing customer is reported with no change; otherwise the ledger becomes `Accrue` at rate 0.075 of the old ledger |
| `Accrual.Accrue` | app/Services/InterestCalculatorService.php:24-41 | the loan balance is never changed; when interest is not due the ledger is unchanged; when due, the interest credited is balance × rate × years and the stamp becomes the current year; afterwards interest is never due again in the same year; a non-negative balance at a non-negative rate never decreases |
| `Accrual.AccrueChangesIffDue` | app/Services/InterestCalculatorService.php:27 | a call changes the ledger exactly when no accrual happened in the current year or later |
| `Accrual.AccrueIdempotentWithinYear` | app/Services/InterestCalculatorService.php:27-41 | a second call in the same year changes nothing, whatever elapsed years it is given |
| `Accrual.ZeroYearsOnlyStamps` | app/Services/InterestCalculatorService.php:29-41 | with zero whole years elapsed, a due accrual keeps the balance and still stamps the date |
| `Accrual.CopiesDifferOnlyInRate` | app/Http/Controllers/CustomerController.php:246 | the two copies agree on the loan balance and the stamp; the service credits 0.045 × years × balance more |
| `Accrual.SimpleNotCompound` | app/Services/InterestCalculatorService.php:35 | covering two years in one call credits balance × rate² less than accruing once in each year |
| `InterestService.CalculateSavingsInterest` | app/Services/InterestCalculatorService.php:10-57 | a missing customer is reported with no change; otherwise the ledger becomes `Accrue` at rate 0.12 of the old ledger |
| `Requests.DepositRequest` | app/Http/Controllers/TransactionController.php:56-67 | refused exactly when the receipt upload failed; otherwise a deposit with the requested, positive amount and the receipt URL |
| `Requests.WithdrawRequest` | app/Http/Controllers/TransactionController.php:98-109 | refused exactly when the amount exceeds the savings balance; otherwise a withdrawal stored negated, so balance plus stored amount is non-negative |
| `Requests.FirstDepositAge` | app/Http/Controllers/TransactionController.php:152-155 | none exactly when there is no deposit record; otherwise the age of some deposit record, and no deposit record is older |
| `Requests.SavedLongEnoughIff` | app/Http/Controllers/TransactionController.php:152-159 | the savings-history rule holds exactly when some deposit record of any status is at least 6 months old |
| `Requests.LoanRequest` | app/Http/Controllers/TransactionController.php:141-177 | accepted exactly when the loan balance is not negative, a bureau is set, the savings-history rule holds, the amount is at most 12% of the salary and at most 200,000; each error is reported exactly when its rule is the first to fail in that order; on acceptance the loan is stored negated |
| `Requests.NoSalaryNoLoan` | app/Http/Controllers/TransactionController.php:161-164 | a customer without a salary is always refused a loan |
| `Requests.RepayRequest` | app/Http/Controllers/TransactionController.php:203-244 | refused with "no active loan" exactly when the loan balance is not negative, and with "overpayment" exactly when the amount would overpay the debt; accepted only with an uploaded receipt, stored positive, with the loan balance after it in (old, 0] |
| `Transactions.Decide` | app/Http/Controllers/TransactionController.php:368-490 | fails only when a withdrawal is approved with `saving < amount` (the signed stored amount); the status is approved iff the action is approve; other actions move no money; recommendations are recorded for loans only, other types reject; net worth moves by the stored amount for deposit, withdrawal and repayment and is preserved by a loan; deposits and withdrawals touch only savings, repayments only the loan balance |
| `Transactions.WithdrawThenApprove` | app/Http/Controllers/TransactionController.php:98-109 | a withdrawal accepted and approved against the same balance takes the requested amount and leaves the balance non-negative |
| `Transactions.RepayThenApprove` | app/Http/Controllers/TransactionController.php:203-244 | a repayment accepted and approved against the same balances leaves the loan balance between its old value and 0, savings unchanged |
| `Transactions.LoanThenApprove` | app/Http/Controllers/TransactionController.php:141-177 | an eligible loan, approved, credits savings with the amount and leaves a debt of at most 200,000 and at most 12% of the salary |
| `Transactions.ReapprovalReapplies` | app/Http/Controllers/TransactionController.php:368-391 | deciding an approved deposit again credits it a second time |
| `Transactions.Submit` | app/Http/Controllers/TransactionController.php:171-177 | a refused request creates no record; an accepted one creates a fresh pending record with the request's type name, signed amount, texts and owner |
| `Transactions.CreateDeposit` | app/Http/Controllers/TransactionController.php:17-76 | a deposit record is created exactly when the upload succeeded, also for a user without a customer record, and a failed upload is refused as such; no balance is read or changed |
| `Transactions.Withdraw` | app/Http/Controllers/TransactionController.php:78-115 | refused exactly when the amount exceeds the savings balance; otherwise a fresh pending withdrawal with the amount negated |
| `Transactions.LoanApply` | app/Http/Controllers/TransactionController.php:117-183 | a user without a customer record is refused first; otherwise a record is created exactly when the eligibility rules pass |
| `Transactions.LoanRepay` | app/Http/Controllers/TransactionController.php:185-254 | a record is created exactly when the repayment rules pass and the upload succeeded |
| `Transactions.ProcessDeposit` | app/Http/Controllers/TransactionController.php:368-391 | status and balances become those of `Decide` for a deposit; the accrual stamp is untouched |
| `Transactions.ProcessWithdrawal` | app/Http/Controllers/TransactionController.php:393-426 | fails with insufficient funds exactly when `Decide` does, leaving status and balance; otherwise status and savings become those of `Decide`; the loan balance is never touched |
| `Transactions.ProcessLoanRepayment` | app/Http/Controllers/TransactionController.php:428-451 | status and balances become those of `Decide` for a repayment |
| `Transactions.ProcessLoanRequest` | app/Http/Controllers/TransactionController.php:453-490 | status and balances become those of `Decide` for a loan |
| `Transactions.ProcessTransaction` | app/Http/Controllers/TransactionController.php:312-366 | an invalid action fails first, then a missing transaction, a missing customer and an unknown type; every failure leaves status and balances unchanged; otherwise the outcome is `Decide` of type, action, stored amount and old balances, never of the old status |
| `Corrections.DecideGuarded` | app/Http/Controllers/TransactionController.php:407 | refuses exactly a final transaction or an approved withdrawal larger than the balance; otherwise agrees with `Decide`; an approved withdrawal never leaves savings negative |
| `Corrections.DecidedOnlyOnce` | app/Http/Controllers/TransactionController.php:312-366 | after a guarded decision approves or rejects, any sequence of further guarded decisions leaves the status and both balances as they were |
| `Corrections.FinalDecisionStays` | app/Http/Controllers/TransactionController.php:312-366 | with the corrected guard, no sequence of decisions changes the status or a balance of an approved or rejected transaction |
| `Corrections.AsWrittenWithdrawalsOverdraw` | app/Http/Controllers/TransactionController.php:407-417 | two withdrawals of 300, each accepted against a balance of 300, are both approved as written and leave -300 |
| `Corrections.GuardedWithdrawalsNeverOverdraw` | app/Http/Controllers/TransactionController.php:407-417 | with the corrected check, no sequence of approved withdrawals makes a non-negative balance negative |
| `Corrections.ProcessTransactionGuarded` | app/Http/Controllers/TransactionController.php:312-426 | same error order and no-change-on-failure as the endpoint, with the outcome given by `DecideGuarded` of the old status |
| `Scenarios.OverdraftByTwoWithdrawals` | app/Http/Controllers/TransactionController.php:98-109 | through the in-place methods, the two withdrawals end at a balance of -300 |
| `Scenarios.GuardedRefusesOverdraft` | app/Http/Controllers/TransactionController.php:407-414 | with the guards, the second approval fails with insufficient funds and the balance stays 0 |
| `Scenarios.DepositApprovedTwice` | app/Http/Controllers/TransactionController.php:379-387 | approving one deposit of 500 twice leaves a balance of 1000 |
| `Scenarios.GuardedRefusesReapproval` | app/Http/Controllers/TransactionController.php:312-366 | with the guards, the second approval fails as already final and the balance stays 500 |
| `Scenarios.RecommendThenApproveLoan` | app/Http/Controllers/TransactionController.php:458-479 | a recommendation on a loan of 5000 moves nothing; a later "APPROVE" credits 5000 and records a debt of 5000 |
| `Scenarios.ApproveInCapitals` | app/Http/Controllers/TransactionController.php:317 | "APPROVE" is accepted as approve |
| `Scenarios.UnknownActionChangesNothing` | app/Http/Controllers/TransactionController.php:320-322 | the action "approved" is refused and the transaction and balances are unchanged |
| `Scenarios.AccrualOfTwoYears` | app/Services/InterestCalculatorService.php:27-41 | 1000 with no earlier accrual, two years old, becomes 1240 at 12%, and a second call in the same year changes nothing |

## Left out

- HTTP, validation and authentication. JSON responses, status codes, the `Validator`, `Auth::user()` and tokens are not modelled. Outcomes are `Result` values. The `min:1` rule is a precondition `amount >= 1`. Non-numeric input is not modelled.
- Receipt upload. The upload to external storage is a network call. It is a parameter: the URL it returned, or none when it failed (including a repayment sent without a file).
- Transaction lookup by id is a nullable reference (null when the id is unknown). The owning user and their customer record are one nullable reference (null when either is missing).
- `Transactions.Withdraw`, `Transactions.LoanRepay`: require an existing customer, because the source reads the customer's balance without checking it exists.
- Atomicity and concurrency. `DB::transaction` and concurrent requests are not modelled. Each method is one atomic step; on every error path nothing is written.
- Floating point and `decimal(10,2)` / `decimal(15,2)` rounding and column overflow. Amounts, rates and balances are exact reals.
- Calendar arithmetic. Whole elapsed years and each record's age in whole months are inputs. The sign of `diffInMonths` across date-library versions is not modelled: ages are non-negative.
- Logging calls; they do not affect the outcome.
- The scheduled interest command. It calls a method of the interest service that does not exist in the source.
- The customer observer, which re-runs the interest service after a save that changed `saving_balance`, is not modelled. `Accrual.AccrueIdempotentWithinYear` shows that such a re-run in the same year changes nothing.
- `Customers.Register`, `Customers.RegisterCustomer`: a salary or bureau of `None` stands for a field sent as null. A request that leaves `salary` or `gov_bureau` out altogether passes validation in the source. It then fails when the missing key is read, after the user row has been written, and no customer is created. The model does not have that case.
- Registration fields other than age, sex, salary and bureau are not modelled. These are phone, account number, names and email, their format and uniqueness rules, the user account and password hashing, and database errors.
- List endpoints, `update`, `delete` and `getCustomerData`, and the other controllers: storage and query building. Because `update` is not modelled, a customer's profile is constant in the model.

## Findings

| source | as written | input that shows it | evidently intended | confidence | as-written member | corrected member |
|---|---|---|---|---|---|---|
| app/Http/Controllers/TransactionController.php:407 | the funds check compares the balance with the stored withdrawal amount, which is negative, so it passes whenever the balance is at least minus the amount | balance 300; two withdrawals of 300 requested while both are pending; approving both leaves -300 | refuse approval when the balance is below the size of the withdrawal | high (not executed) | `Corrections.AsWrittenWithdrawalsOverdraw` | `Corrections.GuardedWithdrawalsNeverOverdraw` |
| app/Http/Controllers/TransactionController.php:312-366 | the current status is never read, so an approved transaction can be decided again | a deposit of 500 approved twice credits 1000 | refuse to decide a transaction that is already approved or rejected | medium (not executed) | `Scenarios.DepositApprovedTwice` | `Corrections.DecidedOnlyOnce` |

The corrected members are `Corrections.DecideGuarded` and `Corrections.ProcessTransactionGuarded`. The rest of the model keeps the faithful `Transactions.Decide` and `Transactions.ProcessTransaction`, because they describe what the code does.
