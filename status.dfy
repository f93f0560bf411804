/**
 * The status line of the reservation caption: the four wire values of the
 * status vocabulary map to fixed labels; every other value prints an empty
 * label rather than failing.
 */
module Status {

  const Confirmed: string := "confirmed"
  const Cancelled: string := "cancelled"
  const CheckedIn: string := "checked_in"
  const CheckOut: string := "check_out"

  const ConfirmedLabel: string := "Подтверждено ✅"
  const CancelledLabel: string := "Отменено ❌"
  const CheckedInLabel: string := "В процессе ▶"
  const CheckOutLabel: string := "Завершено ✅"

  function KnownStatuses(): set<string> {
    {Confirmed, Cancelled, CheckedIn, CheckOut}
  }

  /** The label shown for a status value; "" for a value outside the vocabulary. */
  function Label(status: string): (shown: string)
    ensures shown != "" <==> status in KnownStatuses()
    ensures '\n' !in shown
  {
    if status == Confirmed then ConfirmedLabel
    else if status == Cancelled then CancelledLabel
    else if status == CheckedIn then CheckedInLabel
    else if status == CheckOut then CheckOutLabel
    else ""
  }

  /** Different known statuses are told apart by their labels. */
  lemma LabelsDistinct(s: string, t: string)
    requires s in KnownStatuses() && t in KnownStatuses() && s != t
    ensures Label(s) != Label(t)
  {
    assert ConfirmedLabel[0] != CancelledLabel[0] && ConfirmedLabel[0] != CheckedInLabel[0];
    assert ConfirmedLabel[0] != CheckOutLabel[0] && CancelledLabel[0] != CheckedInLabel[0];
    assert CancelledLabel[0] != CheckOutLabel[0] && CheckedInLabel[0] != CheckOutLabel[0];
  }
}
