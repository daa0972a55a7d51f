/**
 * receipts.py: the data a fee row hands to the receipt renderer, and the write of the
 * rendered document's path back onto the row.
 */
module Receipts {
  import opened Wrappers
  import opened Models
  import opened Utils
  import opened Database

  /** The `fee.student` relationship: the student whose internal key the row's foreign key names, if any. */
  function OwnerOf(students: seq<Student>, key: nat): (s: Option<Student>)
    ensures s != None ==> s.value in students && s.value.key == key
    ensures s == None <==> forall st | st in students :: st.key != key
  {
    match FirstIndex(students, (st: Student) => st.key == key)
    case None => None
    case Some(i) => Some(students[i])
  }

  /** The receipt fields copied from a fee row, with "" for a missing student or missing notes. */
  function BuildReceiptData(fee: Fee, owner: Option<Student>): (d: ReceiptData)
    ensures d.receiptId == fee.receiptId && d.date == fee.timestamp
    ensures d.studentName == fee.name && d.amount == fee.amount && d.purpose == fee.purpose
    ensures d.paymentMode == fee.paymentMode.Label() && d.transactionId == fee.transactionId
    ensures owner == None ==> d.studentId == ""
    ensures owner != None ==> d.studentId == owner.value.studentId
    ensures fee.notes == None ==> d.notes == ""
    ensures fee.notes != None ==> d.notes == fee.notes.value
  {
    ReceiptData(
      fee.receiptId, fee.timestamp, fee.name,
      if owner == None then "" else owner.value.studentId,
      fee.amount, fee.purpose, fee.paymentMode.Label(), fee.transactionId, fee.notes.GetOr(""))
  }

  /**
   * `build_and_save_receipt(s, fee)` for the fee row at `index`: when the renderer succeeds
   * the row's `invoice_path` becomes the returned path; when it raises (None here) nothing
   * is written.
   */
  method BuildAndSaveReceipt(store: Store, index: nat, outFolder: string, rendered: bool)
    returns (path: Option<string>)
    requires store.Valid() && index < |store.fees|
    modifies store`fees
    ensures store.Valid()
    ensures path != None <==> rendered
    ensures rendered ==> path == Some(ReceiptPath(outFolder, old(store.fees)[index].receiptId))
    ensures rendered ==> store.fees == old(store.fees)[index := old(store.fees)[index].(invoicePath := path)]
    ensures !rendered ==> store.fees == old(store.fees)
  {
    var fee := store.fees[index];
    var data := BuildReceiptData(fee, OwnerOf(store.students, fee.studentKey));
    path := CreateReceiptPdf(data, outFolder, rendered);
    if path != None {
      store.SetInvoicePath(index, path.value);
    }
  }
}
