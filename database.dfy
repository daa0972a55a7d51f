/**
 * The record store behind `SessionLocal` (models.py): one sequence of rows per table, an
 * insert that the unique-key constraint rejects on a duplicate (SQLAlchemy's IntegrityError
 * at commit, the table left as it was), and the queries the forms and the webhook run.
 */
module Database {
  import opened Wrappers
  import opened Models
  import opened Ledger

  /** Index of the first element satisfying `p` (the row `.first()` returns, in insertion order). */
  function FirstIndex<T>(s: seq<T>, p: T -> bool): (r: Option<nat>)
    ensures r != None ==> r.value < |s| && p(s[r.value])
    ensures r != None ==> forall j | 0 <= j < r.value :: !p(s[j])
    ensures r == None ==> forall j | 0 <= j < |s| :: !p(s[j])
  {
    if s == [] then None
    else if p(s[0]) then Some(0)
    else match FirstIndex(s[1..], p)
      case None => None
      case Some(i) => Some(i + 1)
  }

  /** `filter((Student.student_id == q) | (Student.email == q)).first()` */
  function MatchStudent(students: seq<Student>, q: string): (r: Option<nat>)
    ensures r != None ==> r.value < |students|
                          && (students[r.value].studentId == q || students[r.value].profile.email == q)
    ensures r == None <==> forall j | 0 <= j < |students| ::
                             students[j].studentId != q && students[j].profile.email != q
  {
    FirstIndex(students, (s: Student) => s.studentId == q || s.profile.email == q)
  }

  /** `filter(Student.student_id == sid).first()`; a missing id (`None`) matches no row. */
  function FindByStudentId(students: seq<Student>, sid: Option<string>): (r: Option<nat>)
    ensures r != None ==> r.value < |students| && sid == Some(students[r.value].studentId)
    ensures r == None <==> forall j | 0 <= j < |students| :: sid != Some(students[j].studentId)
  {
    if sid == None then None
    else
      var hasId := (s: Student) => s.studentId == sid.value;
      var r := FirstIndex(students, hasId);
      assert sid == Some(sid.value);
      assert r != None ==> hasId(students[r.value]);
      assert r == None ==> forall j | 0 <= j < |students| :: !hasId(students[j]);
      r
  }

  /** `filter_by(username=name).first()` */
  function FindUser(users: seq<User>, name: string): (r: Option<nat>)
    ensures r != None ==> r.value < |users| && users[r.value].username == name
    ensures r == None <==> forall j | 0 <= j < |users| :: users[j].username != name
  {
    FirstIndex(users, (u: User) => u.username == name)
  }

  /** Every foreign key names an existing student (keys are row numbers, from 1). */
  predicate Owned(key: nat, students: seq<Student>) {
    1 <= key <= |students|
  }

  class Store {
    var students: seq<Student>
    var admissions: seq<Admission>
    var fees: seq<Fee>
    var hostel: seq<HostelAllocation>
    var exams: seq<Exam>
    var users: seq<User>

    /** Unique keys, valid foreign keys, and a fee table built by the ledger's append rule. */
    ghost predicate Valid()
      reads this
    {
      && (forall i | 0 <= i < |students| :: students[i].key == i + 1)
      && UniqueStudentIds(students)
      && UniqueAdmissionIds(admissions)
      && UniqueReceiptIds(fees)
      && UniqueAllocationIds(hostel)
      && UniqueExamIds(exams)
      && UniqueUsernames(users)
      && (forall a | a in admissions :: Owned(a.studentKey, students))
      && (forall f | f in fees :: Owned(f.studentKey, students))
      && (forall h | h in hostel :: Owned(h.studentKey, students))
      && (forall e | e in exams :: Owned(e.studentKey, students))
      && AppendRule(fees)
    }

    /** The empty database `init_db` creates. */
    constructor ()
      ensures Valid()
      ensures students == [] && admissions == [] && fees == [] && hostel == [] && exams == []
      ensures users == []
    {
      students, admissions, fees, hostel, exams, users := [], [], [], [], [], [];
    }

    /** Inserts a student under the next internal key, unless the human-readable id is taken. */
    method InsertStudent(studentId: string, profile: Profile, now: nat) returns (key: Option<nat>)
      requires Valid()
      modifies this`students
      ensures Valid()
      ensures key != None <==> studentId !in StudentIds(old(students))
      ensures key != None ==> key.value == |old(students)| + 1
                              && students == old(students) + [NewStudent(key.value, studentId, profile, now)]
      ensures key == None ==> students == old(students)
    {
      if studentId in StudentIds(students) {
        key := None;
      } else {
        var k := |students| + 1;
        students := students + [NewStudent(k, studentId, profile, now)];
        key := Some(k);
        assert forall i | 0 <= i < |old(students)| :: old(students)[i] in old(students);
      }
    }

    method InsertAdmission(row: Admission) returns (ok: bool)
      requires Valid() && Owned(row.studentKey, students)
      modifies this`admissions
      ensures Valid()
      ensures ok <==> row.admissionId !in AdmissionIds(old(admissions))
      ensures ok ==> admissions == old(admissions) + [row]
      ensures !ok ==> admissions == old(admissions)
    {
      ok := row.admissionId !in AdmissionIds(admissions);
      if ok {
        assert forall i | 0 <= i < |admissions| :: admissions[i] in admissions;
        admissions := admissions + [row];
      }
    }

    /**
     * The ledger append both payment paths perform: the row for the student at `index`
     * with the balance the rule gives, inserted unless the receipt id is taken.
     */
    method AppendPayment(index: nat, p: Payment, receiptId: string, now: nat) returns (ok: bool)
      requires Valid() && index < |students|
      modifies this`fees
      ensures Valid()
      ensures ok <==> receiptId !in ReceiptIds(old(fees))
      ensures ok ==> fees == old(fees) + [NextRow(old(fees), students[index], p, receiptId, now)]
      ensures !ok ==> fees == old(fees)
    {
      ok := receiptId !in ReceiptIds(fees);
      if ok {
        var row := NextRow(fees, students[index], p, receiptId, now);
        assert row.receiptId == receiptId && row.studentKey == students[index].key;
        assert forall i | 0 <= i < |fees| :: fees[i] in fees;
        assert UniqueReceiptIds(fees + [row]);
        assert forall f | f in fees + [row] :: Owned(f.studentKey, students);
        AppendKeepsRule(fees, students[index], p, receiptId, now);
        fees := fees + [row];
      }
    }

    /** The one update a fee row receives after insertion: the path of its rendered receipt. */
    method SetInvoicePath(i: nat, path: string)
      requires Valid() && i < |fees|
      modifies this`fees
      ensures Valid()
      ensures fees == old(fees)[i := old(fees)[i].(invoicePath := Some(path))]
    {
      AttachKeepsRule(fees, i, path);
      var updated := fees[i := fees[i].(invoicePath := Some(path))];
      assert forall f | f in updated :: Owned(f.studentKey, students) by {
        forall f | f in updated ensures Owned(f.studentKey, students) {
          var j :| 0 <= j < |updated| && updated[j] == f;
          assert fees[j] in fees;
        }
      }
      fees := updated;
    }

    method InsertAllocation(row: HostelAllocation) returns (ok: bool)
      requires Valid() && Owned(row.studentKey, students)
      modifies this`hostel
      ensures Valid()
      ensures ok <==> row.allocationId !in AllocationIds(old(hostel))
      ensures ok ==> hostel == old(hostel) + [row]
      ensures !ok ==> hostel == old(hostel)
    {
      ok := row.allocationId !in AllocationIds(hostel);
      if ok {
        assert forall i | 0 <= i < |hostel| :: hostel[i] in hostel;
        hostel := hostel + [row];
      }
    }

    method InsertExam(row: Exam) returns (ok: bool)
      requires Valid() && Owned(row.studentKey, students)
      modifies this`exams
      ensures Valid()
      ensures ok <==> row.examId !in ExamIds(old(exams))
      ensures ok ==> exams == old(exams) + [row]
      ensures !ok ==> exams == old(exams)
    {
      ok := row.examId !in ExamIds(exams);
      if ok {
        assert forall i | 0 <= i < |exams| :: exams[i] in exams;
        exams := exams + [row];
      }
    }

    method InsertUser(row: User) returns (ok: bool)
      requires Valid()
      modifies this`users
      ensures Valid()
      ensures ok <==> row.username !in Usernames(old(users))
      ensures ok ==> users == old(users) + [row]
      ensures !ok ==> users == old(users)
    {
      ok := row.username !in Usernames(users);
      if ok {
        assert forall i | 0 <= i < |users| :: users[i] in users;
        users := users + [row];
      }
    }
  }
}
