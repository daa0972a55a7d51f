/**
 * The record store's tables (models.py): one datatype per table, the column defaults the
 * store fills in on insertion, and the unique human-readable keys. Timestamps are the
 * store's clock reading at insertion, passed in as `now`.
 */
module Models {
  import opened Wrappers

  const DEFAULT_ADMISSION_STATUS := "Pending"
  const DEFAULT_HOSTEL_STATUS := "Requested"
  const DEFAULT_ROLE := "viewer"
  const DEFAULT_BALANCE: real := 0.0

  /** The payment channels offered by the fee form. */
  datatype PaymentMode = Cash | UPI | Card | Netbanking | Gateway {
    /** The text stored in the `payment_mode` column. */
    function Label(): string {
      match this
      case Cash => "Cash"
      case UPI => "UPI"
      case Card => "Card"
      case Netbanking => "Netbanking"
      case Gateway => "Gateway"
    }
  }

  /** The admission form's fields, stored on the student row. */
  datatype Profile = Profile(
    name: string, dob: string, gender: string, email: string, mobile: string,
    program: string, year: string, department: string, address: string,
    guardianName: string, guardianContact: string)

  /** `key` is the store's internal numeric key; `studentId` the human-readable one. */
  datatype Student = Student(
    key: nat, studentId: string, profile: Profile, photoPath: Option<string>, createdAt: nat)

  datatype Admission = Admission(
    admissionId: string, studentKey: nat, submittedAt: nat, source: string,
    documents: Option<string>, status: string, remarks: Option<string>)

  /** One ledger row; `invoicePath` is the only column written after insertion. */
  datatype Fee = Fee(
    receiptId: string, timestamp: nat, studentKey: nat, name: string, amount: real,
    paymentMode: PaymentMode, transactionId: string, invoicePath: Option<string>,
    balanceAfter: real, purpose: string, notes: Option<string>, recordedBy: string)

  datatype HostelAllocation = HostelAllocation(
    allocationId: string, studentKey: nat, block: string, roomNo: string, bedNo: string,
    moveIn: string, moveOut: Option<string>, status: string, requestedAt: nat,
    allocatedBy: string, notes: Option<string>)

  datatype Exam = Exam(
    examId: string, studentKey: nat, subjectCode: string, subjectName: string, marks: real,
    status: string, gradedAt: nat, gradedBy: string, notes: Option<string>)

  datatype User = User(
    username: string, hashedPassword: string, role: string, displayName: string, createdAt: nat)

  // ---- Rows as the store inserts them: unset nullable columns stay empty, defaults apply ----

  function NewStudent(key: nat, studentId: string, profile: Profile, now: nat): (s: Student)
    ensures s.key == key && s.studentId == studentId && s.profile == profile
    ensures s.photoPath == None && s.createdAt == now
  {
    Student(key, studentId, profile, None, now)
  }

  function NewAdmission(
    admissionId: string, studentKey: nat, source: string, status: Option<string>, now: nat)
    : (a: Admission)
    ensures a.admissionId == admissionId && a.studentKey == studentKey && a.source == source
    ensures status == None ==> a.status == DEFAULT_ADMISSION_STATUS
    ensures status != None ==> a.status == status.value
    ensures a.submittedAt == now && a.documents == None && a.remarks == None
  {
    Admission(admissionId, studentKey, now, source, None, status.GetOr(DEFAULT_ADMISSION_STATUS), None)
  }

  function NewFee(
    receiptId: string, studentKey: nat, name: string, amount: real, mode: PaymentMode,
    transactionId: string, balanceAfter: Option<real>, purpose: string, recordedBy: string,
    now: nat)
    : (f: Fee)
    ensures f.receiptId == receiptId && f.studentKey == studentKey && f.name == name
    ensures f.amount == amount && f.paymentMode == mode && f.transactionId == transactionId
    ensures f.purpose == purpose && f.recordedBy == recordedBy
    ensures balanceAfter == None ==> f.balanceAfter == DEFAULT_BALANCE
    ensures balanceAfter != None ==> f.balanceAfter == balanceAfter.value
    ensures f.timestamp == now && f.invoicePath == None && f.notes == None
  {
    Fee(receiptId, now, studentKey, name, amount, mode, transactionId, None,
        balanceAfter.GetOr(DEFAULT_BALANCE), purpose, None, recordedBy)
  }

  function NewHostelAllocation(
    allocationId: string, studentKey: nat, block: string, roomNo: string, bedNo: string,
    moveIn: string, status: Option<string>, allocatedBy: string, notes: Option<string>, now: nat)
    : (h: HostelAllocation)
    ensures h.allocationId == allocationId && h.studentKey == studentKey
    ensures h.block == block && h.roomNo == roomNo && h.bedNo == bedNo && h.moveIn == moveIn
    ensures status == None ==> h.status == DEFAULT_HOSTEL_STATUS
    ensures status != None ==> h.status == status.value
    ensures h.allocatedBy == allocatedBy && h.notes == notes
    ensures h.requestedAt == now && h.moveOut == None
  {
    HostelAllocation(allocationId, studentKey, block, roomNo, bedNo, moveIn, None,
                     status.GetOr(DEFAULT_HOSTEL_STATUS), now, allocatedBy, notes)
  }

  function NewExam(
    examId: string, studentKey: nat, subjectCode: string, subjectName: string, marks: real,
    status: string, gradedBy: string, now: nat)
    : (e: Exam)
    ensures e.examId == examId && e.studentKey == studentKey && e.marks == marks
    ensures e.subjectCode == subjectCode && e.subjectName == subjectName && e.gradedBy == gradedBy
    ensures e.status == status && e.gradedAt == now && e.notes == None
  {
    Exam(examId, studentKey, subjectCode, subjectName, marks, status, now, gradedBy, None)
  }

  function NewUser(
    username: string, hashedPassword: string, role: Option<string>, displayName: string, now: nat)
    : (u: User)
    ensures u.username == username && u.hashedPassword == hashedPassword
    ensures role == None ==> u.role == DEFAULT_ROLE
    ensures role != None ==> u.role == role.value
    ensures u.displayName == displayName && u.createdAt == now
  {
    User(username, hashedPassword, role.GetOr(DEFAULT_ROLE), displayName, now)
  }

  // ---- Unique keys ----

  function StudentIds(students: seq<Student>): set<string> {
    set s | s in students :: s.studentId
  }

  function AdmissionIds(admissions: seq<Admission>): set<string> {
    set a | a in admissions :: a.admissionId
  }

  function ReceiptIds(fees: seq<Fee>): set<string> {
    set f | f in fees :: f.receiptId
  }

  function AllocationIds(hostel: seq<HostelAllocation>): set<string> {
    set h | h in hostel :: h.allocationId
  }

  function ExamIds(exams: seq<Exam>): set<string> {
    set e | e in exams :: e.examId
  }

  function Usernames(users: seq<User>): set<string> {
    set u | u in users :: u.username
  }

  predicate UniqueStudentIds(students: seq<Student>) {
    forall i, j | 0 <= i < j < |students| :: students[i].studentId != students[j].studentId
  }

  predicate UniqueAdmissionIds(admissions: seq<Admission>) {
    forall i, j | 0 <= i < j < |admissions| :: admissions[i].admissionId != admissions[j].admissionId
  }

  predicate UniqueReceiptIds(fees: seq<Fee>) {
    forall i, j | 0 <= i < j < |fees| :: fees[i].receiptId != fees[j].receiptId
  }

  predicate UniqueAllocationIds(hostel: seq<HostelAllocation>) {
    forall i, j | 0 <= i < j < |hostel| :: hostel[i].allocationId != hostel[j].allocationId
  }

  predicate UniqueExamIds(exams: seq<Exam>) {
    forall i, j | 0 <= i < j < |exams| :: exams[i].examId != exams[j].examId
  }

  predicate UniqueUsernames(users: seq<User>) {
    forall i, j | 0 <= i < j < |users| :: users[i].username != users[j].username
  }
}
