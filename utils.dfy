/**
 * The pure parts of utils.py: the two identifier formats, the receipt file path, and the
 * backup file names of the CSV export. The clock and the random draws are parameters; the
 * random ranges of `random.randint` are the subset types below.
 */
module Utils {
  import opened Wrappers

  const DEFAULT_STUDENT_PREFIX := "COLG"

  /** `random.randint(10000, 99999)` */
  type StudentRand = r: nat | 10000 <= r <= 99999 witness 10000

  /** `random.randint(1000, 9999)` */
  type GenericRand = r: nat | 1000 <= r <= 9999 witness 1000

  /** One call of `gen_generic_id`: the millisecond clock reading and the random draw. */
  datatype Draw = Draw(millis: nat, rand: GenericRand)

  // ---- Decimal text ----

  predicate IsDigit(c: char) {
    '0' <= c <= '9'
  }

  predicate AllDigits(s: string) {
    forall i | 0 <= i < |s| :: IsDigit(s[i])
  }

  function DigitChar(d: nat): (c: char)
    requires d < 10
    ensures IsDigit(c)
  {
    ('0' as int + d) as char
  }

  function DigitValue(c: char): (d: nat)
    requires IsDigit(c)
    ensures d < 10
  {
    c as int - '0' as int
  }

  /** Python's `str(n)` for a non-negative integer: decimal digits, no leading zero. */
  function Decimal(n: nat): (s: string)
    ensures 1 <= |s| && AllDigits(s)
    ensures s[0] == '0' ==> n == 0
    decreases n
  {
    if n < 10 then [DigitChar(n)] else Decimal(n / 10) + [DigitChar(n % 10)]
  }

  /** The value of a string of decimal digits; the inverse of `Decimal`. */
  function ParseDecimal(s: string): nat
    requires AllDigits(s)
  {
    if s == [] then 0 else ParseDecimal(s[..|s| - 1]) * 10 + DigitValue(s[|s| - 1])
  }

  function Pow10(k: nat): (p: nat)
    ensures p >= 1
  {
    if k == 0 then 1 else 10 * Pow10(k - 1)
  }

  lemma {:induction false} ParseDecimalOfDecimal(n: nat)
    ensures ParseDecimal(Decimal(n)) == n
    decreases n
  {
    var s := Decimal(n);
    if n >= 10 {
      assert s[..|s| - 1] == Decimal(n / 10);
      ParseDecimalOfDecimal(n / 10);
    } else {
      assert s[..|s| - 1] == [];
    }
  }

  /** A number in [10^k, 10^(k+1)) is written with exactly k + 1 digits. */
  lemma {:induction false} DecimalLength(n: nat, k: nat)
    requires Pow10(k) <= n < Pow10(k + 1)
    ensures |Decimal(n)| == k + 1
  {
    if k > 0 {
      assert 10 * Pow10(k - 1) <= n < 10 * Pow10(k);
      assert Pow10(k - 1) <= n / 10 < Pow10(k);
      DecimalLength(n / 10, k - 1);
    }
  }

  /** `f"{n:02d}"` for n below 100. */
  function Pad2(n: nat): (s: string)
    requires n < 100
    ensures |s| == 2 && AllDigits(s) && ParseDecimal(s) == n
  {
    ParseDecimalOfDecimal(n);
    if n < 10 then
      var s := "0" + Decimal(n);
      assert s[..1] == "0";
      s
    else
      DecimalLength(n, 1);
      Decimal(n)
  }

  // ---- Identifier formats (utils.py gen_student_id, gen_generic_id) ----

  /** `gen_student_id(prefix)` given the UTC year and the random draw. */
  function StudentId(prefix: string, year: nat, rand: StudentRand): (id: string)
    ensures |id| == |prefix| + 8
    ensures id[..|prefix|] == prefix && id[|prefix| + 2] == 'S'
    ensures AllDigits(id[|prefix|..|prefix| + 2]) && AllDigits(id[|prefix| + 3..])
  {
    DecimalLength(rand, 4);
    var id := prefix + Pad2(year % 100) + "S" + Decimal(rand);
    assert id[|prefix|..|prefix| + 2] == Pad2(year % 100);
    assert id[|prefix| + 3..] == Decimal(rand);
    id
  }

  /** Reads back the two-digit year and the random number of a student id with this prefix. */
  function ParseStudentId(prefix: string, id: string): Option<(nat, nat)> {
    var p := |prefix|;
    if |id| == p + 8 && id[..p] == prefix && id[p + 2] == 'S'
       && AllDigits(id[p..p + 2]) && AllDigits(id[p + 3..])
    then Some((ParseDecimal(id[p..p + 2]), ParseDecimal(id[p + 3..])))
    else None
  }

  lemma StudentIdRoundTrip(prefix: string, year: nat, rand: StudentRand)
    ensures ParseStudentId(prefix, StudentId(prefix, year, rand)) == Some((year % 100, rand))
  {
    var id := StudentId(prefix, year, rand);
    var p := |prefix|;
    DecimalLength(rand, 4);
    assert id == prefix + Pad2(year % 100) + "S" + Decimal(rand);
    assert id[p..p + 2] == Pad2(year % 100);
    assert id[p + 3..] == Decimal(rand);
    ParseDecimalOfDecimal(rand);
  }

  /** With the default prefix a student id has twelve characters, e.g. COLG24S12345. */
  lemma DefaultStudentIdShape(year: nat, rand: StudentRand)
    ensures |StudentId(DEFAULT_STUDENT_PREFIX, year, rand)| == 12
    ensures StudentId(DEFAULT_STUDENT_PREFIX, year, rand)[..4] == "COLG"
  {
  }

  /** `gen_generic_id(prefix)` given the millisecond clock and the random draw. */
  function GenericId(prefix: string, millis: nat, rand: GenericRand): (id: string)
    ensures |id| >= |prefix| + 7
    ensures id[..|prefix|] == prefix && id[|prefix|] == '-' && id[|id| - 5] == '-'
    ensures AllDigits(id[|prefix| + 1..|id| - 5]) && AllDigits(id[|id| - 4..])
  {
    DecimalLength(rand, 3);
    var id := prefix + "-" + Decimal(millis) + "-" + Decimal(rand);
    assert id[|prefix| + 1..|id| - 5] == Decimal(millis);
    assert id[|id| - 4..] == Decimal(rand);
    id
  }

  /** Reads back the clock reading and the random number of a generic id with this prefix. */
  function ParseGenericId(prefix: string, id: string): Option<(nat, nat)> {
    var p := |prefix|;
    if |id| >= p + 7 && id[..p] == prefix && id[p] == '-' && id[|id| - 5] == '-'
       && AllDigits(id[p + 1..|id| - 5]) && AllDigits(id[|id| - 4..])
    then Some((ParseDecimal(id[p + 1..|id| - 5]), ParseDecimal(id[|id| - 4..])))
    else None
  }

  lemma GenericIdRoundTrip(prefix: string, millis: nat, rand: GenericRand)
    ensures ParseGenericId(prefix, GenericId(prefix, millis, rand)) == Some((millis, rand))
  {
    var id := GenericId(prefix, millis, rand);
    DecimalLength(rand, 3);
    assert id == prefix + "-" + Decimal(millis) + "-" + Decimal(rand);
    assert id[|prefix| + 1..|id| - 5] == Decimal(millis);
    assert id[|id| - 4..] == Decimal(rand);
    ParseDecimalOfDecimal(millis);
    ParseDecimalOfDecimal(rand);
    var p := |prefix|;
    assert |id| >= p + 7 && id[..p] == prefix && id[p] == '-' && id[|id| - 5] == '-';
    assert ParseGenericId(prefix, id) == Some((ParseDecimal(id[p + 1..|id| - 5]), ParseDecimal(id[|id| - 4..])));
  }

  /** Two generic ids with one prefix coincide only when clock reading and draw both do. */
  lemma GenericIdInjective(prefix: string, d1: Draw, d2: Draw)
    requires GenericId(prefix, d1.millis, d1.rand) == GenericId(prefix, d2.millis, d2.rand)
    ensures d1 == d2
  {
    GenericIdRoundTrip(prefix, d1.millis, d1.rand);
    GenericIdRoundTrip(prefix, d2.millis, d2.rand);
  }

  // ---- Paths ----

  /** POSIX `os.path.join(dir, name)` for two components. */
  function Join(dir: string, name: string): (p: string)
    ensures |p| >= |name| && p[|p| - |name|..] == name
    ensures name == [] || name[0] != '/' ==> |p| >= |dir| && p[..|dir|] == dir
  {
    if |name| > 0 && name[0] == '/' then name
    else if dir == [] || dir[|dir| - 1] == '/' then dir + name
    else dir + "/" + name
  }

  /** Within one directory, relative names that join to the same path are the same name. */
  lemma JoinCancel(dir: string, a: string, b: string)
    requires a == [] || a[0] != '/'
    requires b == [] || b[0] != '/'
    requires Join(dir, a) == Join(dir, b)
    ensures a == b
  {
    var sep := if dir == [] || dir[|dir| - 1] == '/' then dir else dir + "/";
    assert Join(dir, a) == sep + a && Join(dir, b) == sep + b;
    assert a == (sep + a)[|sep|..];
    assert b == (sep + b)[|sep|..];
  }

  /** The file `create_receipt_pdf` writes: `<out_folder>/<receipt_id>.pdf`. */
  function ReceiptPath(outFolder: string, receiptId: string): (p: string)
    ensures |p| >= |receiptId| + 4 && p[|p| - |receiptId| - 4..] == receiptId + ".pdf"
  {
    Join(outFolder, receiptId + ".pdf")
  }

  /**
   * The receipt file is keyed by the receipt id alone: distinct (relative) receipt ids in one
   * folder never share a file, so re-rendering a receipt overwrites only its own document.
   */
  lemma ReceiptPathInjective(outFolder: string, a: string, b: string)
    requires a == [] || a[0] != '/'
    requires b == [] || b[0] != '/'
    requires ReceiptPath(outFolder, a) == ReceiptPath(outFolder, b)
    ensures a == b
  {
    assert (a + ".pdf") == [] || (a + ".pdf")[0] != '/' by {
      if a == [] { assert (a + ".pdf")[0] == '.'; }
    }
    assert (b + ".pdf") == [] || (b + ".pdf")[0] != '/' by {
      if b == [] { assert (b + ".pdf")[0] == '.'; }
    }
    JoinCancel(outFolder, a + ".pdf", b + ".pdf");
    assert a == (a + ".pdf")[..|a|];
    assert b == (b + ".pdf")[..|b|];
  }

  /** Ids made by `gen_generic_id` with a prefix like "REC" are relative file names. */
  lemma GenericIdIsRelative(prefix: string, millis: nat, rand: GenericRand)
    requires prefix != [] && prefix[0] != '/'
    ensures GenericId(prefix, millis, rand)[0] != '/'
  {
    var id := GenericId(prefix, millis, rand);
    assert id[..|prefix|][0] == prefix[0];
  }

  /** The fields `create_receipt_pdf` prints; `date` is the fee row's timestamp. */
  datatype ReceiptData = ReceiptData(
    receiptId: string, date: nat, studentName: string, studentId: string, amount: real,
    purpose: string, paymentMode: string, transactionId: string, notes: string)

  /**
   * `create_receipt_pdf(data, out_folder)`: the document is written at the path derived from
   * the receipt id, or the renderer raises (`rendered` is false), returned here as None.
   */
  function CreateReceiptPdf(data: ReceiptData, outFolder: string, rendered: bool): (r: Option<string>)
    ensures r != None <==> rendered
    ensures rendered ==> r == Some(ReceiptPath(outFolder, data.receiptId))
  {
    if rendered then Some(ReceiptPath(outFolder, data.receiptId)) else None
  }

  // ---- CSV backup (utils.py export_csv_all) ----

  datatype DateTime = DateTime(year: nat, month: nat, day: nat, hour: nat, minute: nat, second: nat)
  {
    predicate Valid() {
      1 <= month <= 12 && 1 <= day <= 31 && hour < 24 && minute < 60 && second < 60
    }
  }

  /** Digits for the date, '_', then six digits for the time of day. */
  predicate StampShape(s: string) {
    |s| >= 7 && s[|s| - 7] == '_' && AllDigits(s[..|s| - 7]) && AllDigits(s[|s| - 6..])
  }

  /** `strftime("%Y%m%d_%H%M%S")` */
  function BackupStamp(t: DateTime): string
    requires t.Valid()
  {
    Decimal(t.year) + Pad2(t.month) + Pad2(t.day) + "_" + Pad2(t.hour) + Pad2(t.minute) + Pad2(t.second)
  }

  /** For any year the stamp is the date's digits, '_', then the six digits of the time of day. */
  lemma BackupStampFormat(t: DateTime)
    requires t.Valid()
    ensures StampShape(BackupStamp(t))
  {
    var s := BackupStamp(t);
    var date := Decimal(t.year) + Pad2(t.month) + Pad2(t.day);
    var time := Pad2(t.hour) + Pad2(t.minute) + Pad2(t.second);
    assert s == date + "_" + time;
    assert s[..|s| - 7] == date && s[|s| - 6..] == time;
  }

  /** A four-digit year gives a fifteen-character stamp with the underscore in the middle. */
  lemma BackupStampShape(t: DateTime)
    requires t.Valid() && 1000 <= t.year <= 9999
    ensures |BackupStamp(t)| == 15 && BackupStamp(t)[8] == '_'
    ensures AllDigits(BackupStamp(t)[..8]) && AllDigits(BackupStamp(t)[9..])
  {
    DecimalLength(t.year, 3);
    var s := BackupStamp(t);
    var date := Decimal(t.year) + Pad2(t.month) + Pad2(t.day);
    var time := Pad2(t.hour) + Pad2(t.minute) + Pad2(t.second);
    assert s == date + "_" + time;
    assert s[..8] == date;
    assert s[9..] == time;
  }

  /** `<BACKUP_FOLDER>/<table>_<ts>.csv` */
  function BackupPath(backupFolder: string, table: string, stamp: string): (p: string)
    ensures |p| >= |table| + |stamp| + 5
    ensures p[|p| - |table| - |stamp| - 5..] == table + "_" + stamp + ".csv"
  {
    Join(backupFolder, table + "_" + stamp + ".csv")
  }

  /** The tables `export_csv_all` writes, in its order. */
  const EXPORTED_TABLES: seq<string> := ["students", "admissions", "fees", "hostel", "exams"]

  /**
   * `export_csv_all`: one file per table, all named with the same timestamp; the map from
   * table to path is what it returns. Writing the CSV contents is not modelled.
   */
  method ExportCsvAll(backupFolder: string, now: DateTime) returns (paths: map<string, string>)
    requires now.Valid()
    ensures paths.Keys == set t | t in EXPORTED_TABLES
    ensures forall t | t in paths :: paths[t] == BackupPath(backupFolder, t, BackupStamp(now))
  {
    var ts := BackupStamp(now);
    paths := map[];
    var p := BackupPath(backupFolder, "students", ts);
    paths := paths["students" := p];
    p := BackupPath(backupFolder, "admissions", ts);
    paths := paths["admissions" := p];
    p := BackupPath(backupFolder, "fees", ts);
    paths := paths["fees" := p];
    p := BackupPath(backupFolder, "hostel", ts);
    paths := paths["hostel" := p];
    p := BackupPath(backupFolder, "exams", ts);
    paths := paths["exams" := p];
    ExportMap((t: string) => BackupPath(backupFolder, t, ts));
  }

  /** The five assignments of `export_csv_all` give each exported table, and nothing else, its path. */
  lemma ExportMap(pathOf: string -> string)
    ensures var m := map[]["students" := pathOf("students")]["admissions" := pathOf("admissions")]
                       ["fees" := pathOf("fees")]["hostel" := pathOf("hostel")]["exams" := pathOf("exams")];
            && m.Keys == (set t | t in EXPORTED_TABLES)
            && forall t | t in m :: m[t] == pathOf(t)
  {
  }

  /** The five export files never overwrite one another: the table names differ in their first letter. */
  lemma BackupPathsDistinct(backupFolder: string, stamp: string, i: nat, j: nat)
    requires i < j < |EXPORTED_TABLES|
    ensures BackupPath(backupFolder, EXPORTED_TABLES[i], stamp)
         != BackupPath(backupFolder, EXPORTED_TABLES[j], stamp)
  {
    var t1, t2 := EXPORTED_TABLES[i], EXPORTED_TABLES[j];
    var n1 := t1 + "_" + stamp + ".csv";
    var n2 := t2 + "_" + stamp + ".csv";
    assert t1[0] != t2[0];
    assert n1[0] == t1[0] && n2[0] == t2[0];
    if Join(backupFolder, n1) == Join(backupFolder, n2) {
      JoinCancel(backupFolder, n1, n2);
    }
  }
}
