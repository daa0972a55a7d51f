/**
 * The decisions of the Streamlit script app.py: session login and logout, the admission
 * form, the fee form, the marks form, admin user creation and the dashboard totals. Widget
 * values arrive as parameters; the clock and the random draws too.
 */
module App {
  import opened Wrappers
  import opened Models
  import opened Utils
  import opened Ledger
  import opened Database
  import Receipts
  import Webhook

  /** The messages a form reports instead of saving. */
  datatype UiError =
    | NameAndEmailRequired
    | StudentNotFound
    | NotAdmin
    | UsernameExists
      /** A generated key already taken: the uncaught IntegrityError of the commit. */
    | IntegrityError(table: string)

  /** The minimum marks for "Pass". */
  const PASS_MARK: real := 40.0

  // ---- Session state (app.py:16-37) ----

  /** `st.session_state.user`: the fields copied from the user row at login. */
  datatype UserView = UserView(username: string, role: string, displayName: string)

  function ViewOf(u: User): UserView {
    UserView(u.username, u.role, u.displayName)
  }

  /**
   * The login check: the user with that name exists and `verify(hash, password)` holds.
   * `verify` stands for werkzeug's `check_password_hash`.
   */
  function Authenticate(
    users: seq<User>, username: string, password: string, verify: (string, string) -> bool)
    : (r: Option<UserView>)
    ensures r != None ==> exists i | 0 <= i < |users| ::
              users[i].username == username && verify(users[i].hashedPassword, password)
              && r.value == ViewOf(users[i])
    ensures UniqueUsernames(users) ==>
              (r == None <==> forall i | 0 <= i < |users| ::
                 users[i].username == username ==> !verify(users[i].hashedPassword, password))
  {
    match FindUser(users, username)
    case None => None
    case Some(i) => if verify(users[i].hashedPassword, password) then Some(ViewOf(users[i])) else None
  }

  class SessionState {
    var loggedIn: bool
    var user: Option<UserView>

    ghost predicate Valid()
      reads this
    {
      loggedIn <==> user != None
    }

    /** A fresh browser session: not logged in. */
    constructor ()
      ensures Valid() && !loggedIn && user == None
    {
      loggedIn, user := false, None;
    }

    /** The Login button: on success both fields are set; "Invalid creds" changes nothing. */
    method Login(users: seq<User>, username: string, password: string, verify: (string, string) -> bool)
      returns (ok: bool)
      requires Valid()
      modifies this
      ensures Valid()
      ensures ok <==> Authenticate(users, username, password, verify) != None
      ensures ok ==> loggedIn && user == Authenticate(users, username, password, verify)
      ensures !ok ==> loggedIn == old(loggedIn) && user == old(user)
    {
      var found := Authenticate(users, username, password, verify);
      ok := found != None;
      if ok {
        loggedIn, user := true, found;
      }
    }

    method Logout()
      modifies this
      ensures Valid() && !loggedIn && user == None
    {
      loggedIn, user := false, None;
    }
  }

  // ---- Admissions (app.py:82-98) ----

  /**
   * Submit Admission: name and email are required; then a student under a generated
   * student id, then an approved online admission linked to it, each in its own commit.
   */
  method SubmitAdmission(store: Store, form: Profile, utcYear: nat, rand: StudentRand, admDraw: Draw, now: nat)
    returns (r: Result<(string, string), UiError>)
    requires store.Valid()
    modifies store`students, store`admissions
    ensures store.Valid()
    ensures r == Failure(NameAndEmailRequired) <==> form.name == "" || form.email == ""
    ensures var sid := StudentId(DEFAULT_STUDENT_PREFIX, utcYear, rand);
            var aid := GenericId("ADM", admDraw.millis, admDraw.rand);
            var key := |old(store.students)| + 1;
            && (form.name == "" || form.email == "" || sid in StudentIds(old(store.students)) ==>
                  store.students == old(store.students) && store.admissions == old(store.admissions))
            && (form.name != "" && form.email != "" && sid in StudentIds(old(store.students)) ==>
                  r == Failure(IntegrityError("students")))
            && (form.name != "" && form.email != "" && sid !in StudentIds(old(store.students)) ==>
                  && store.students == old(store.students) + [NewStudent(key, sid, form, now)]
                  && (aid in AdmissionIds(old(store.admissions)) ==>
                        r == Failure(IntegrityError("admissions"))
                        && store.admissions == old(store.admissions))
                  && (aid !in AdmissionIds(old(store.admissions)) ==>
                        r == Success((sid, aid))
                        && store.admissions == old(store.admissions)
                             + [NewAdmission(aid, key, "Online", Some("Approved"), now)]))
  {
    if form.name == "" || form.email == "" {
      return Failure(NameAndEmailRequired);
    }
    var sid := StudentId(DEFAULT_STUDENT_PREFIX, utcYear, rand);
    var key := store.InsertStudent(sid, form, now);
    if key == None {
      return Failure(IntegrityError("students"));
    }
    var aid := GenericId("ADM", admDraw.millis, admDraw.rand);
    var ok := store.InsertAdmission(NewAdmission(aid, key.value, "Online", Some("Approved"), now));
    r := if ok then Success((sid, aid)) else Failure(IntegrityError("admissions"));
  }

  // ---- Fees (app.py:127-150) ----

  /** The fee form's lookup: an empty query finds nobody; otherwise exact student id or email. */
  function StudentForPayment(students: seq<Student>, query: string): (r: Option<nat>)
    ensures r == None <==> query == "" || forall j | 0 <= j < |students| ::
                             students[j].studentId != query && students[j].profile.email != query
    ensures r != None ==> r.value < |students|
                          && (students[r.value].studentId == query || students[r.value].profile.email == query)
  {
    if query == "" then None else MatchStudent(students, query)
  }

  /** A recorded payment: its receipt id, and the receipt document's path if rendering succeeded. */
  datatype Recorded = Recorded(receiptId: string, invoicePath: Option<string>)

  /**
   * Record Payment: find the student, append the ledger row (committed first), then render
   * the receipt; a rendering failure is only a warning and the row stays without a path.
   * `rendered` says whether the renderer succeeds.
   */
  method RecordPayment(
    store: Store, query: string, amount: real, mode: PaymentMode, purpose: string, txn: string,
    recordedBy: string, receiptDraw: Draw, now: nat, outFolder: string, rendered: bool)
    returns (r: Result<Recorded, UiError>)
    requires store.Valid() && amount >= 0.0
    modifies store`fees
    ensures store.Valid()
    ensures r == Failure(StudentNotFound) <==> StudentForPayment(store.students, query) == None
    ensures r.Failure? ==> store.fees == old(store.fees)
    ensures var found := StudentForPayment(store.students, query);
            var rid := GenericId("REC", receiptDraw.millis, receiptDraw.rand);
            found != None ==>
              && (rid in ReceiptIds(old(store.fees)) ==> r == Failure(IntegrityError("fees")))
              && (rid !in ReceiptIds(old(store.fees)) ==>
                    var path := if rendered then Some(ReceiptPath(outFolder, rid)) else None;
                    var row := NextRow(old(store.fees), store.students[found.value],
                                       Payment(amount, mode, TransactionReference(txn, rid), purpose, recordedBy),
                                       rid, now);
                    r == Success(Recorded(rid, path))
                    && store.fees == old(store.fees) + [row.(invoicePath := path)])
  {
    var found := StudentForPayment(store.students, query);
    if found == None {
      return Failure(StudentNotFound);
    }
    var rid := GenericId("REC", receiptDraw.millis, receiptDraw.rand);
    var payment := Payment(amount, mode, TransactionReference(txn, rid), purpose, recordedBy);
    var ok := store.AppendPayment(found.value, payment, rid, now);
    if !ok {
      return Failure(IntegrityError("fees"));
    }
    ghost var row := NextRow(old(store.fees), store.students[found.value], payment, rid, now);
    assert store.fees == old(store.fees) + [row];
    var path := ReceiptForLastRow(store, old(store.fees), row, outFolder, rendered);
    r := Success(Recorded(rid, path));
  }

  /** The receipt step of Record Payment, for the row `row` the commit has just appended to `before`. */
  method ReceiptForLastRow(store: Store, ghost before: seq<Fee>, ghost row: Fee, outFolder: string, rendered: bool)
    returns (path: Option<string>)
    requires store.Valid() && store.fees == before + [row] && row.invoicePath == None
    modifies store`fees
    ensures store.Valid()
    ensures path == if rendered then Some(ReceiptPath(outFolder, row.receiptId)) else None
    ensures store.fees == before + [row.(invoicePath := path)]
  {
    path := Receipts.BuildAndSaveReceipt(store, |store.fees| - 1, outFolder, rendered);
    if rendered {
      assert store.fees == (before + [row])[|before| := row.(invoicePath := path)];
    } else {
      assert row.(invoicePath := path) == row;
    }
  }

  // ---- Hostel (app.py:171-181) ----

  /** The status the hostel form gives every allocation it creates. */
  const ALLOCATED := "Allocated"

  /**
   * Create/Allocate: the student is looked up by exact student id or email (no check for an
   * empty query), then an allocation row is inserted in the "Allocated" state, recorded by
   * the logged-in user. `moveIn` is the chosen date in ISO form.
   */
  method AllocateHostel(
    store: Store, query: string, block: string, roomNo: string, bedNo: string, moveIn: string,
    notes: string, allocatedBy: string, allocDraw: Draw, now: nat)
    returns (r: Result<string, UiError>)
    requires store.Valid()
    modifies store`hostel
    ensures store.Valid()
    ensures r == Failure(StudentNotFound) <==> MatchStudent(store.students, query) == None
    ensures r.Failure? ==> store.hostel == old(store.hostel)
    ensures var found := MatchStudent(store.students, query);
            var hid := GenericId("HST", allocDraw.millis, allocDraw.rand);
            found != None ==>
              && (hid in AllocationIds(old(store.hostel)) ==> r == Failure(IntegrityError("hostel")))
              && (hid !in AllocationIds(old(store.hostel)) ==>
                    r == Success(hid)
                    && store.hostel == old(store.hostel)
                         + [NewHostelAllocation(hid, store.students[found.value].key, block, roomNo, bedNo,
                                                moveIn, Some(ALLOCATED), allocatedBy, Some(notes), now)])
  {
    var found := MatchStudent(store.students, query);
    if found == None {
      return Failure(StudentNotFound);
    }
    var hid := GenericId("HST", allocDraw.millis, allocDraw.rand);
    var ok := store.InsertAllocation(
      NewHostelAllocation(hid, store.students[found.value].key, block, roomNo, bedNo,
                          moveIn, Some(ALLOCATED), allocatedBy, Some(notes), now));
    r := if ok then Success(hid) else Failure(IntegrityError("hostel"));
  }

  // ---- Exams (app.py:199-209) ----

  /** `"Pass" if marks >= 40 else "Fail"` */
  function ExamStatus(marks: real): (status: string)
    ensures status == "Pass" <==> marks >= PASS_MARK
    ensures status == "Fail" <==> marks < PASS_MARK
  {
    if marks >= PASS_MARK then "Pass" else "Fail"
  }

  /**
   * Save Marks: the student is looked up by exact student id or email (with no check for an
   * empty query), then the graded exam row is inserted. Marks come from a 0-100 input.
   */
  method SaveMarks(
    store: Store, query: string, subjectCode: string, subjectName: string, marks: real,
    gradedBy: string, examDraw: Draw, now: nat)
    returns (r: Result<(string, string), UiError>)
    requires store.Valid() && 0.0 <= marks <= 100.0
    modifies store`exams
    ensures store.Valid()
    ensures r == Failure(StudentNotFound) <==> MatchStudent(store.students, query) == None
    ensures r.Failure? ==> store.exams == old(store.exams)
    ensures var found := MatchStudent(store.students, query);
            var eid := GenericId("EXM", examDraw.millis, examDraw.rand);
            found != None ==>
              && (eid in ExamIds(old(store.exams)) ==> r == Failure(IntegrityError("exams")))
              && (eid !in ExamIds(old(store.exams)) ==>
                    r == Success((eid, ExamStatus(marks)))
                    && store.exams == old(store.exams)
                         + [NewExam(eid, store.students[found.value].key, subjectCode, subjectName,
                                    marks, ExamStatus(marks), gradedBy, now)])
  {
    var found := MatchStudent(store.students, query);
    if found == None {
      return Failure(StudentNotFound);
    }
    var eid := GenericId("EXM", examDraw.millis, examDraw.rand);
    var status := ExamStatus(marks);
    var ok := store.InsertExam(NewExam(eid, store.students[found.value].key, subjectCode, subjectName,
                                       marks, status, gradedBy, now));
    r := if ok then Success((eid, status)) else Failure(IntegrityError("exams"));
  }

  // ---- Admin (app.py:242-259) ----

  /**
   * Create User: only an admin session may; a taken username rolls back and reports
   * "Username exists". `hashedPassword` is `hash_password(pwd)`.
   */
  method CreateUser(
    store: Store, session: SessionState, username: string, hashedPassword: string,
    role: string, displayName: string, now: nat)
    returns (r: Result<(), UiError>)
    requires store.Valid() && session.Valid() && session.loggedIn
    modifies store`users
    ensures store.Valid()
    ensures r.Failure? ==> store.users == old(store.users)
    ensures session.user.value.role != "admin" ==> r == Failure(NotAdmin)
    ensures r.Success? <==> session.user.value.role == "admin" && username !in Usernames(old(store.users))
    ensures session.user.value.role == "admin" ==>
              && (r == Failure(UsernameExists) <==> username in Usernames(old(store.users)))
              && (r.Success? ==>
                    store.users == old(store.users) + [NewUser(username, hashedPassword, Some(role), displayName, now)])
  {
    if session.user.value.role != "admin" {
      return Failure(NotAdmin);
    }
    var ok := store.InsertUser(NewUser(username, hashedPassword, Some(role), displayName, now));
    r := if ok then Success(()) else Failure(UsernameExists);
  }

  // ---- Dashboard (app.py:219-226) ----

  /** The dashboard metrics: the number of students and the sum of all fee amounts. */
  method DashboardTotals(store: Store) returns (studentCount: nat, feesCollected: real)
    ensures studentCount == |store.students|
    ensures feesCollected == Total(store.fees)
  {
    studentCount := |store.students|;
    var rows := store.fees;
    feesCollected := 0.0;
    var i := 0;
    while i < |rows|
      invariant 0 <= i <= |rows|
      invariant feesCollected == Total(rows[..i])
    {
      assert rows[..i + 1][..i] == rows[..i];
      feesCollected := feesCollected + rows[i].amount;
      i := i + 1;
    }
    assert rows[..i] == rows;
  }

  // ---- A worked scenario across both payment paths ----

  /** The first step of the scenario below: admission of a new student into an empty store. */
  method AdmitFirst(form: Profile) returns (store: Store, sid: string)
    requires form.name != "" && form.email != ""
    ensures fresh(store) && store.Valid()
    ensures sid == StudentId(DEFAULT_STUDENT_PREFIX, 2024, 12345)
    ensures store.students == [NewStudent(1, sid, form, 0)] && store.fees == []
  {
    store := new Store();
    sid := StudentId(DEFAULT_STUDENT_PREFIX, 2024, 12345);
    assert sid !in StudentIds(store.students);
    var admitted := SubmitAdmission(store, form, 2024, 12345, Draw(1, 1000), 0);
  }

  /** The first half of the scenario below: admission of a new student, then a cash payment of 1000.0. */
  method AdmitAndPay(form: Profile) returns (store: Store, sid: string, first: Fee)
    requires form.name != "" && form.email != ""
    ensures fresh(store) && store.Valid()
    ensures sid == StudentId(DEFAULT_STUDENT_PREFIX, 2024, 12345)
    ensures |store.students| == 1 && store.students[0].studentId == sid && store.fees == [first]
    ensures first.receiptId == GenericId("REC", 2, 1000) && first.studentKey == 1
    ensures first.balanceAfter == -1000.0 && first.paymentMode == Cash && first.invoicePath != None
  {
    store, sid := AdmitFirst(form);
    assert store.students[0].studentId == sid;
    assert StudentForPayment(store.students, sid) == Some(0);
    var paid := RecordPayment(store, sid, 1000.0, Cash, "Tuition", "", "accounts", Draw(2, 1000), 1, "receipts", true);
    assert GenericId("REC", 2, 1000) !in ReceiptIds([]);
    assert LatestBalance([], 1) == 0.0;
    first := store.fees[0];
  }

  /**
   * A genuine gateway notice of 500.0 for the student with id `sid`, at index `i`: accepted
   * under the receipt id drawn, and that student's row is appended.
   */
  method GenuineNotice(store: Store, sid: string, ghost i: nat) returns (answer: Webhook.Response)
    requires store.Valid() && FindByStudentId(store.students, Some(sid)) == Some(i)
    requires GenericId("REC", 4, 1000) !in ReceiptIds(store.fees)
    modifies store`fees
    ensures store.Valid() && i < |store.students|
    ensures answer == Webhook.Ok(GenericId("REC", 4, 1000))
    ensures store.fees == old(store.fees)
              + [NextRow(old(store.fees), store.students[i],
                         Payment(500.0, Gateway, GenericId("TXN", 3, 1000), Webhook.DEFAULT_PURPOSE, Webhook.GATEWAY_ACTOR),
                         GenericId("REC", 4, 1000), 2)]
  {
    var noAmountText := (t: string) => None;
    var notice := Webhook.Payload(
      Some(Webhook.DEFAULT_SHARED_SECRET), Some(sid), Some(Webhook.Number(500.0)), None, None, 0);
    var payment := Payment(500.0, Gateway, GenericId("TXN", 3, 1000), Webhook.DEFAULT_PURPOSE, Webhook.GATEWAY_ACTOR);
    assert Webhook.Truthy(Webhook.Json(notice));
    assert Webhook.Screen(Webhook.Json(notice), Webhook.DEFAULT_SHARED_SECRET, store.students, noAmountText,
                          GenericId("TXN", 3, 1000)) == Webhook.Proceed(i, payment);
    answer := Webhook.HandleWebhook(
      store, Webhook.Json(notice), Webhook.DEFAULT_SHARED_SECRET, noAmountText, Draw(3, 1000), Draw(4, 1000), 2);
  }

  /**
   * The second step: the gateway reports 500.0 for the only student, whose one ledger row
   * left a balance of -1000.0. The new row carries -1500.0 and no receipt.
   */
  method GatewayPaysAfter(store: Store, sid: string, first: Fee) returns (second: Fee)
    requires store.Valid() && |store.students| == 1 && store.students[0].studentId == sid
    requires store.fees == [first] && first.studentKey == 1 && first.balanceAfter == -1000.0
    requires first.receiptId == GenericId("REC", 2, 1000)
    modifies store`fees
    ensures store.Valid() && store.fees == [first, second]
    ensures second.balanceAfter == -1500.0 && second.paymentMode == Gateway && second.invoicePath == None
    ensures second.studentKey == 1
  {
    ghost var rid2 := GenericId("REC", 4, 1000);
    if rid2 == first.receiptId {
      GenericIdInjective("REC", Draw(4, 1000), Draw(2, 1000));
    }
    assert rid2 !in ReceiptIds(store.fees);
    assert FindByStudentId(store.students, Some(sid)) == Some(0);
    assert LatestBalance(store.fees, 1) == -1000.0;
    var answer := GenuineNotice(store, sid, 0);
    second := store.fees[1];
  }

  /** The third step: a notice for `sid` with a wrong secret is refused with 401 and appends nothing. */
  method RefuseForgedNotice(store: Store, sid: string) returns (refused: Webhook.Response)
    requires store.Valid()
    modifies store`fees
    ensures store.Valid() && store.fees == old(store.fees)
    ensures refused.Status() == 401
  {
    var noAmountText := (t: string) => None;
    var forged := Webhook.Payload(Some("wrong"), Some(sid), Some(Webhook.Number(500.0)), None, None, 0);
    assert Webhook.Truthy(Webhook.Json(forged));
    assert Webhook.Screen(Webhook.Json(forged), Webhook.DEFAULT_SHARED_SECRET, store.students, noAmountText,
                          GenericId("TXN", 5, 1000)) == Webhook.Refuse(Webhook.Unauthorized);
    refused := Webhook.HandleWebhook(
      store, Webhook.Json(forged), Webhook.DEFAULT_SHARED_SECRET, noAmountText, Draw(5, 1000), Draw(6, 1000), 3);
  }

  /**
   * A new student is admitted and pays 1000.0 in cash at the fee form (receipt rendered);
   * then the gateway reports 500.0 for them; then a request with a wrong secret arrives. The
   * ledger shows -1000.0 and -1500.0, only the first row has a receipt, and the third
   * request is refused with 401 without a new row.
   */
  method PaymentScenario(form: Profile) returns (first: Fee, second: Fee, refused: Webhook.Response, rows: nat)
    requires form.name != "" && form.email != ""
    ensures first.balanceAfter == -1000.0 && first.paymentMode == Cash && first.invoicePath != None
    ensures second.balanceAfter == -1500.0 && second.paymentMode == Gateway && second.invoicePath == None
    ensures second.studentKey == first.studentKey
    ensures refused.Status() == 401 && rows == 2
  {
    var store, sid;
    store, sid, first := AdmitAndPay(form);
    second := GatewayPaysAfter(store, sid, first);
    refused := RefuseForgedNotice(store, sid);
    rows := |store.fees|;
  }
}
