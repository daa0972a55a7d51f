# College ERP — a verified model of its record-keeping rules

The College ERP is a small administration app with three parts:

- a Streamlit front end (`app.py`) for admissions, fees, hostel, exams, a dashboard and admin tools;
- a Flask endpoint (`webhook_forwarder.py`) through which a payment gateway reports payments;
- SQLAlchemy tables (`models.py`), helpers for identifiers, receipts and backups (`utils.py`), and the receipt builder (`receipts.py`).

This project models the decisions these files make, and proves what they promise.

- **Store.** The database is the class `Database.Store`. It holds one sequence of rows per table. Every insert enforces the table's unique human-readable key: a duplicate leaves the table as it was, which is SQLAlchemy's IntegrityError at commit. `Store.Valid()` bundles the store's invariant:
  - the keys are unique;
  - every foreign key names an existing student;
  - the fee table was built by the ledger's append rule.
- **Fee ledger** (`Ledger`). Both the fee form and the gateway webhook append a row whose `balance_after` is the student's latest balance (0.0 when there is none) minus the amount. The main theorem, `Ledger.RunningBalance`, follows from this: however manual and gateway payments interleave, the k-th row of a student carries minus the sum of that student's first k amounts.
- **Webhook** (`Webhook`). The guard chain is `Webhook.Screen`. Each refusal (400, 401, 500, 404) is characterised by an if-and-only-if, in source order. A truthy top-level JSON value that is not an object passes the 400 guard and fails at `payload.get` with a 500. `Webhook.HandleWebhook` proves that every error answer leaves the ledger unchanged.
- **Receipts** (`Receipts`, `Utils.CreateReceiptPdf`). The receipt fields are copied from the fee row. The file path depends only on the receipt id. `invoice_path` is written once, and only when rendering succeeds. The fee form commits the row before rendering, so a failed render leaves a row without a path.
- **Identifiers** (`Utils`). Student ids are `COLG` + a two-digit year + `S` + five digits. Generic ids are `PREFIX-millis-rand`. Both are proved to parse back to their inputs. Two further results: distinct receipt ids give distinct receipt files, and the five backup files get distinct names under one shared timestamp.
- **UI decisions** (`App`):
  - login and logout (a class over the two session fields);
  - the admission form;
  - the fee form;
  - the hostel form;
  - marks and Pass/Fail grading;
  - admin-only user creation;
  - the dashboard total, computed by a loop proved equal to the ledger's `Total`.

  `App.PaymentScenario` runs the operations themselves on a fresh store: a cash payment of 1000.0 followed by a gateway payment of 500.0 gives balances -1000.0 and -1500.0, and a request with a wrong secret then gets 401 and adds no row.

The clock, the random draws, the password checker, the `float()` conversion of text and the success of the PDF renderer all enter as parameters.

Two behaviours of the code worth noting:

- The webhook converts `amount` before it looks the student up (`webhook_forwarder.py:19` comes before the lookup at lines 23-26). An unparsable amount therefore gives a server error (500) even when the student does not exist.
- No operation regenerates an identifier after a uniqueness violation. A colliding generated id is an error outcome (`UiError.IntegrityError`, or 500 at the gateway), and the table of the failing insert is left unchanged. The admission form commits in two steps (app.py:92-93, then 96-97): when the admission id collides, the student committed just before it stays stored, without an admission.

## Model

| member | source | states |
|---|---|---|
| Models.NewStudent | models.py:15-31 | a new student row keeps the given ids and profile; the photo path is unset and `created_at` is the insertion time |
| Models.NewAdmission | models.py:38-47 | status defaults to "Pending" when none is given, otherwise it is the given one; documents and remarks are unset; `submitted_at` is the insertion time |
| Models.NewFee | models.py:51-65 | `balance_after` defaults to 0.0, otherwise it is the given value; `timestamp` is the insertion time; invoice path and notes are unset; the other columns are as given |
| Models.NewHostelAllocation | models.py:69-82 | status defaults to "Requested" when none is given; `move_out` is unset; `requested_at` is the insertion time |
| Models.NewExam | models.py:86-97 | the exam row keeps id, student, subject code and name, marks, grader and status; `graded_at` is the insertion time; notes are unset |
| Models.NewUser | models.py:101-108 | role defaults to "viewer" when none is given; `created_at` is the insertion time |
| Utils.Pad2 | utils.py:11-12 | `{year:02d}` for a number below 100 is two digits that read back as the number |
| Utils.StudentId | utils.py:10-12 | a student id is the prefix, two digits, 'S', then five digits (the draw is in [10000, 99999]), so it is 8 characters longer than the prefix |
| Utils.StudentIdRoundTrip | utils.py:10-12 | a student id parses back to (year mod 100, random draw) |
| Utils.DefaultStudentIdShape | utils.py:10-12 | with the default prefix "COLG" a student id has 12 characters and starts with "COLG" |
| Utils.GenericId | utils.py:14-16 | a generic id is the prefix, '-', the decimal clock reading, '-', then four digits (the draw is in [1000, 9999]) |
| Utils.GenericIdRoundTrip | utils.py:14-16 | a generic id parses back to its clock reading and random draw |
| Utils.GenericIdInjective | utils.py:14-16 | two generic ids with one prefix are equal only if their clock readings and draws are equal |
| Utils.GenericIdIsRelative | utils.py:14-16 | an id generated with a prefix such as "REC" does not start with '/', so `os.path.join` keeps the folder |
| Utils.Join | utils.py:65 | `os.path.join` ends with the file name, and keeps the folder as a prefix when the name is relative |
| Utils.JoinCancel | utils.py:65 | within one folder, two relative names that join to the same path are the same name |
| Utils.ReceiptPath | utils.py:64-65 | the receipt path ends with `<receipt_id>.pdf` |
| Utils.ReceiptPathInjective | utils.py:64-65 | distinct relative receipt ids in one folder give distinct receipt files |
| Utils.CreateReceiptPdf | utils.py:56-85 | the renderer returns the path derived from the receipt id exactly when it succeeds |
| Utils.BackupStampFormat | utils.py:28 | `strftime("%Y%m%d_%H%M%S")` is the date's digits, '_', then the six digits of the time of day |
| Utils.BackupStampShape | utils.py:28 | `%Y%m%d_%H%M%S` with a four-digit year is 15 characters with '_' at index 8 and digits elsewhere |
| Utils.BackupPath | utils.py:31-47 | a backup file path ends with `<table>_<ts>.csv` |
| Utils.ExportMap | utils.py:27-49 | the five dict assignments give each exported table, and no other key, its own path |
| Utils.ExportCsvAll | utils.py:24-51 | the export returns exactly the keys students, admissions, fees, hostel and exams, each mapped to its path under one shared timestamp |
| Utils.BackupPathsDistinct | utils.py:28-49 | the five backup paths of one export are pairwise distinct |
| Ledger.TransactionReference | app.py:141 | the stored transaction id is the supplied one when it is non-empty, otherwise the generated one (also `webhook_forwarder.py:20`) |
| Ledger.LatestBalanceIsLastRow | app.py:137-138 | the prior balance is the `balance_after` of the student's latest row, or 0.0 when the student has no row (also `webhook_forwarder.py:29-30`) |
| Ledger.NextRow | app.py:137-142 | the appended row's `balance_after` is the student's latest balance minus the amount; it is owned by the student and carries the student's name and the payment's fields; it has no invoice path |
| Ledger.AppendKeepsRule | app.py:137-144 | appending the next row keeps every row's balance consistent with the one before it |
| Ledger.LatestBalanceIsMinusTotal | app.py:137-139 | under the append rule, a student's latest balance is minus the sum of all their amounts (0.0 with no rows) |
| Ledger.NextRowBalance | app.py:137-139 | a new payment's row carries minus everything that student has paid, the new amount included |
| Ledger.RunningBalance | webhook_forwarder.py:29-34 | for any interleaving of manual and gateway payments, the k-th row of a student has balance −(a1+…+ak) |
| Ledger.SameLedgerSameBalance | receipts.py:18 | changing only invoice paths does not change any student's latest balance |
| Ledger.SameLedgerSameRule | receipts.py:18-19 | changing only invoice paths keeps the append rule, in both directions |
| Ledger.AttachKeepsRule | receipts.py:18-19 | writing a receipt path onto a row keeps the ledger valid |
| Ledger.Total | app.py:222-224 | the sum of the amounts of some rows; a sum of non-negative amounts is non-negative |
| Ledger.TotalOfAppend | app.py:223-224 | the sum over two concatenated row lists is the sum of their sums |
| Ledger.TotalSplits | app.py:223-224 | the total over all rows is one student's total plus everyone else's |
| Ledger.TotalCollectedMatchesBalance | app.py:222-224 | the dashboard total equals minus one student's latest balance plus the other students' payments |
| Database.FirstIndex | app.py:131 | `.first()`: the index of the first row satisfying the filter, or none when no row does |
| Database.MatchStudent | app.py:131 | the lookup finds a student whose id or email equals the query exactly; it finds none iff no such student exists |
| Database.FindByStudentId | webhook_forwarder.py:23 | the webhook lookup matches on the student id only; a missing id matches nothing |
| Database.FindUser | app.py:26 | the login lookup finds the user with that username, or none iff there is none |
| Database.Store.constructor | models.py:110-111 | the freshly created database is empty and valid |
| Database.Store.InsertStudent | models.py:17-18 | a student is added under the next row key iff the student id is new; otherwise the table is unchanged |
| Database.Store.InsertAdmission | models.py:41-42 | an admission is added iff its id is new; otherwise the table is unchanged |
| Database.Store.AppendPayment | models.py:54 | the next ledger row is appended iff the receipt id is new; a duplicate is rejected and nothing is overwritten |
| Database.Store.SetInvoicePath | receipts.py:18-19 | only the invoice path of that one row changes, and the store stays valid |
| Database.Store.InsertAllocation | models.py:72-73 | an allocation is added iff its id is new; otherwise the table is unchanged |
| Database.Store.InsertExam | models.py:89-90 | an exam row is added iff its id is new; otherwise the table is unchanged |
| Database.Store.InsertUser | models.py:104 | a user is added iff the username is new; otherwise the table is unchanged |
| Receipts.OwnerOf | receipts.py:10 | `fee.student` is a student of the table whose key equals the fee's foreign key; it is none iff no student has that key |
| Receipts.BuildReceiptData | receipts.py:6-16 | receipt id, name, amount, purpose, mode and transaction id are copied unchanged; `student_id` is "" without a linked student; notes are "" when unset |
| Receipts.BuildAndSaveReceipt | receipts.py:5-20 | on success the row's invoice path becomes exactly the returned receipt path; on failure nothing is written |
| Webhook.Truthy | webhook_forwarder.py:13-15 | `if not payload` refuses exactly these bodies: no JSON at all, a falsy top-level value (`[]`, `""`, `0`, `false`), and the empty object `{}` |
| Webhook.AmountOf | webhook_forwarder.py:19 | a missing amount is 0; a number is itself; text is what `float()` makes of it, or a failure |
| Webhook.Screen | webhook_forwarder.py:12-26 | the guards in fixed order: no or falsy JSON gives 400; then a truthy top-level value that is not an object fails at `payload.get` (500); then a wrong secret gives 401; then a bad amount fails; then an unknown student id gives 404; otherwise a Gateway payment recorded by "gateway", with purpose defaulting to "Tuition" and a generated TXN id when none is supplied |
| Webhook.HandleWebhook | webhook_forwarder.py:11-36 | every error answer leaves the ledger unchanged; on success exactly one row is appended, with the balance rule and no invoice path, and the response carries that row's receipt id |
| App.Authenticate | app.py:25-27 | the login succeeds iff a user with that username exists and the password verifies against the stored hash |
| App.SessionState.constructor | app.py:16-18 | a new session is logged out with no user |
| App.SessionState.Login | app.py:20-33 | on success `logged_in` is set and the user record is copied; on "Invalid creds" the session is unchanged |
| App.SessionState.Logout | app.py:35-37 | logout resets both session fields |
| App.SubmitAdmission | app.py:82-98 | an empty name or email stores nothing; otherwise exactly one student with the generated id is stored, plus one "Online"/"Approved" admission linked to it |
| App.StudentForPayment | app.py:128-133 | an empty query, or one matching no exact student id or email, finds no student |
| App.RecordPayment | app.py:127-150 | "Student not found" adds no row; otherwise the row with the balance rule and the transaction-id default is committed; its invoice path is set only if rendering succeeds |
| App.ReceiptForLastRow | app.py:145-149 | after the commit, the new row gets the receipt path iff rendering succeeds; a failure leaves the row as committed |
| App.AllocateHostel | app.py:171-181 | an unknown student stores nothing; otherwise one "Allocated" row for that student is inserted |
| App.ExamStatus | app.py:205 | the status is "Pass" iff marks ≥ 40, and "Fail" otherwise |
| App.SaveMarks | app.py:197-209 | an unknown student stores nothing; otherwise one exam row with the graded status is inserted |
| App.CreateUser | app.py:242-259 | creation succeeds iff the session is an admin's and the username is new, and then exactly the new user row is appended; a non-admin session creates nothing; a duplicate username leaves the users table unchanged and reports "Username exists" |
| App.DashboardTotals | app.py:219-226 | the loop's total equals the sum of all fee amounts, and the count is the number of students |
| App.AdmitFirst | app.py:82-98 | an admission into an empty store creates the one student with key 1 and adds no fee row |
| App.AdmitAndPay | app.py:82-150 | admitting a new student and paying 1000.0 in cash gives one row with balance -1000.0 and a receipt path |
| App.GenuineNotice | webhook_forwarder.py:11-36 | a notice with the right secret, a numeric amount and a known student id is answered ok and appends that student's Gateway row |
| App.GatewayPaysAfter | webhook_forwarder.py:27-34 | a gateway payment of 500.0 after a row with balance -1000.0 gives balance -1500.0 with no receipt path |
| App.RefuseForgedNotice | webhook_forwarder.py:16-17 | a notice with a wrong secret gets 401 and leaves the ledger unchanged, whatever it names |
| App.PaymentScenario | webhook_forwarder.py:11-36 | the three steps in sequence: balances -1000.0 then -1500.0, only the cash row has a receipt, and the forged notice adds no third row |

## Left out

- Streamlit rendering and page flow (`st.*` widgets, `st.stop`, reruns, dataframes) and Flask routing and `jsonify`: only the decisions they guard are modelled.
- The SQLAlchemy engine, sessions and SQLite. The store is an in-memory sequence of rows per table. Internal keys are row numbers, and "latest fee row" means the last one appended for that student. This assumes insertion timestamps never decrease, so ties in `order_by(timestamp desc)` are ignored.
- Concurrency: the read-latest-balance-then-insert race between the UI and the webhook process is not modelled. The store is a single sequential writer.
- Floating point: amounts and marks are `real`, so rounding in sums and differences is not modelled.
- Time and randomness are parameters: the UTC year, the millisecond clock and the `random.randint` draws.
- Password hashing is not modelled. `hash_password` output arrives as a string, and `verify_password` is a function parameter.
- PDF layout (fpdf) and CSV contents (pandas) are not modelled. Only paths and file names are. Creating the output directories is I/O.
- `Utils.BackupStamp`: `%Y` is written as the year's plain decimal digits. The shape lemma covers four-digit years only.
- Webhook JSON values inside the object other than the modelled ones (a number or text for `amount`, text for the other keys) are not modelled. That covers `null` or boolean amounts, non-string secrets, ids or purposes, and SQLite type affinity. A top-level value that is not an object is modelled only by its truthiness, which is all the handler inspects before `payload.get` fails on it.
- `Database.FirstIndex`: `.first()` without `order_by` (app.py:131, 172, 200) has no defined row order in SQL. The model takes insertion order. This matters only when two students share an email, because email is not unique.
- `App.DashboardTotals`: `row.amount or 0.0` is not modelled for a null amount, because every row in the model has an amount.
- The `ilike` substring search of the admissions page (app.py:101-113) is not modelled: its case-insensitive matching is database-specific.
- The "Recent Payments", "Hostel Occupancy" and "Recent Grades" lists are not modelled. Neither are the dashboard's monthly grouping and charts (app.py:228-237), nor the manual DB download (app.py:266-269). These are display-only.
- config.py (environment-variable defaults, directory creation) and init_db.py (a one-off provisioning script) are not part of this model.
- `App.RecordPayment` and `App.SaveMarks` take the widget bounds (amount ≥ 0, marks in [0, 100]) as preconditions, because the number inputs enforce them before the handler runs.
