/**
 * The Telegram adapter's reservation features: notifying the operators and
 * the guest of a new reservation, the "my reservations" command and the
 * reservation-detail button.
 *
 * Each operation returns the bot calls it makes, in order. Transport results
 * are inputs (`Outcome`s), and the reservation query port is a function from
 * the lookup key to the port's answer.
 */
module Telegram {
  import opened Wrappers
  import opened Text
  import opened Dates
  import opened Bot
  import opened Render
  import opened Wording
  import CallbackToken

  /** A reservation as listed by the "my reservations" command. */
  datatype ReservationSummary = ReservationSummary(uuid: string, houseName: string, checkIn: Date, checkOut: Date)

  /** An inline-button press: the query's id, its callback data and the chat it came from. */
  datatype CallbackQuery = CallbackQuery(id: string, data: string, chatId: ChatId)

  const FetchFailedText: string := "⚠️ Не удалось получить бронирования. Попробуйте позже."
  const NoReservationsText: string := "У вас пока нет бронирований."
  const ListTitle: string := "Ваши бронирования:"
  const NotFoundText: string := "Бронирование не найдено."

  /** Caption of a reservation's button: "📅 DD.MM → DD.MM 🏠 house". */
  function ButtonLabel(r: ReservationSummary): string {
    StayLabel + FormatDayMonth(r.checkIn) + Arrow + FormatDayMonth(r.checkOut) + " 🏠 " + r.houseName
  }

  /** The button that opens a reservation's details. */
  function ReservationButton(r: ReservationSummary): Button {
    Button(ButtonLabel(r), CallbackToken.Encode(r.uuid))
  }

  /** One row holding one button per reservation, in the order listed. */
  predicate IsReservationKeyboard(rows: seq<seq<Button>>, rs: seq<ReservationSummary>) {
    |rows| == |rs| && forall i :: 0 <= i < |rs| ==> rows[i] == [ReservationButton(rs[i])]
  }

  /**
   * Pressing the button of row i looks up exactly reservation i: its
   * callback data decodes to that reservation's UUID, and different
   * reservations carry different data.
   */
  lemma KeyboardDecodes(rows: seq<seq<Button>>, rs: seq<ReservationSummary>)
    requires IsReservationKeyboard(rows, rs)
    ensures forall i :: 0 <= i < |rows| ==> |rows[i]| == 1 && CallbackToken.Decode(rows[i][0].callbackData) == rs[i].uuid
    ensures forall i, j :: 0 <= i < |rows| && 0 <= j < |rows| && rs[i].uuid != rs[j].uuid ==>
              rows[i][0].callbackData != rows[j][0].callbackData
  {
    forall i | 0 <= i < |rows|
      ensures |rows[i]| == 1 && CallbackToken.Decode(rows[i][0].callbackData) == rs[i].uuid
    {
      CallbackToken.DecodeEncode(rs[i].uuid);
    }
  }

  /** The keyboard of the reservation list, built row by row. */
  method BuildKeyboard(rs: seq<ReservationSummary>) returns (rows: seq<seq<Button>>)
    ensures IsReservationKeyboard(rows, rs)
  {
    rows := [];
    for i := 0 to |rs|
      invariant |rows| == i
      invariant forall j :: 0 <= j < i ==> rows[j] == [ReservationButton(rs[j])]
    {
      var btn := ReservationButton(rs[i]);
      rows := rows + [[btn]];
    }
  }

  class Adapter {
    /** Chats of the service's operators, notified of every new reservation. */
    const adminChatIDs: seq<ChatId>

    constructor (adminChatIDs: seq<ChatId>)
      ensures this.adminChatIDs == adminChatIDs
    {
      this.adminChatIDs := adminChatIDs;
    }

    /**
     * Sends `text` to each operator chat in turn and stops at the first send
     * that fails, returning its error; later chats are not tried.
     * `outcomes[i]` is the transport's answer to the send to `adminChatIDs[i]`.
     */
    method SendToAdmins(text: string, outcomes: seq<Outcome>)
      returns (sent: seq<Action>, err: Outcome)
      requires |outcomes| == |adminChatIDs|
      ensures |sent| <= |adminChatIDs|
      ensures forall i :: 0 <= i < |sent| ==> sent[i] == SendMessage(adminChatIDs[i], text, Markdown, None)
      ensures err == Delivered <==> forall i :: 0 <= i < |outcomes| ==> outcomes[i] == Delivered
      ensures err == Delivered ==> |sent| == |adminChatIDs|
      ensures err.Failed? ==>
                && 1 <= |sent| && err == outcomes[|sent| - 1]
                && forall i :: 0 <= i < |sent| - 1 ==> outcomes[i] == Delivered
    {
      sent := [];
      var i := 0;
      while i < |adminChatIDs|
        invariant 0 <= i <= |adminChatIDs| && |sent| == i
        invariant forall j :: 0 <= j < i ==> sent[j] == SendMessage(adminChatIDs[j], text, Markdown, None)
        invariant forall j :: 0 <= j < i ==> outcomes[j] == Delivered
      {
        sent := sent + [SendMessage(adminChatIDs[i], text, Markdown, None)];
        if outcomes[i].Failed? {
          return sent, outcomes[i];
        }
        i := i + 1;
      }
      return sent, Delivered;
    }

    /**
     * Renders the operators' notification once and sends it to every
     * operator chat, as `SendToAdmins` does.
     */
    method ReservationCreatedForAdmin(msg: ReservationCreatedMessage, outcomes: seq<Outcome>)
      returns (sent: seq<Action>, err: Outcome)
      requires |outcomes| == |adminChatIDs|
      ensures |sent| <= |adminChatIDs|
      ensures forall i :: 0 <= i < |sent| ==> sent[i] == SendMessage(adminChatIDs[i], AdminText(msg), Markdown, None)
      ensures err == Delivered <==> forall i :: 0 <= i < |outcomes| ==> outcomes[i] == Delivered
      ensures err == Delivered ==> |sent| == |adminChatIDs|
      ensures err.Failed? ==>
                && 1 <= |sent| && err == outcomes[|sent| - 1]
                && forall i :: 0 <= i < |sent| - 1 ==> outcomes[i] == Delivered
    {
      var text := RenderAdminText(msg);
      sent, err := SendToAdmins(text, outcomes);
    }

    /** Sends the guest's confirmation to the guest's chat; the send's error is returned as is. */
    method ReservationCreatedForUser(msg: ReservationCreatedMessage, tgID: ChatId, outcome: Outcome)
      returns (sent: seq<Action>, err: Outcome)
      ensures sent == [SendMessage(tgID, GuestText(msg), Markdown, None)]
      ensures err == outcome
    {
      var text := RenderGuestText(msg);
      sent := [SendMessage(tgID, text, Markdown, None)];
      if outcome.Failed? {
        return sent, outcome;
      }
      return sent, Delivered;
    }

    /**
     * The "my reservations" command from chat `tgID`: exactly one plain
     * message back to that chat, whatever the query port answers. A failed
     * lookup gets the retry-later notice and an empty list the empty-state
     * notice, both without buttons; otherwise the list title with one button
     * row per reservation.
     */
    method MyReservationsHandler(tgID: ChatId, reservationsOf: ChatId -> Result<seq<ReservationSummary>>)
      returns (sent: seq<Action>)
      ensures |sent| == 1 && sent[0].SendMessage? && sent[0].chatId == tgID && sent[0].parseMode == Plain
      ensures reservationsOf(tgID).Failure? ==> sent[0].text == FetchFailedText && sent[0].keyboard == None
      ensures reservationsOf(tgID) == Success([]) ==> sent[0].text == NoReservationsText && sent[0].keyboard == None
      ensures reservationsOf(tgID).Success? && reservationsOf(tgID).value != [] ==>
                && sent[0].text == ListTitle && sent[0].keyboard.Some?
                && IsReservationKeyboard(sent[0].keyboard.value, reservationsOf(tgID).value)
    {
      var found := reservationsOf(tgID);
      if found.Failure? {
        return [SendMessage(tgID, FetchFailedText, Plain, None)];
      }
      var reservations := found.value;
      if |reservations| == 0 {
        return [SendMessage(tgID, NoReservationsText, Plain, None)];
      }
      var rows := BuildKeyboard(reservations);
      sent := [SendMessage(tgID, ListTitle, Plain, Some(rows))];
    }

    /**
     * A reservation button pressed: nothing without a callback query;
     * otherwise the reservation named by the decoded callback data is looked
     * up for the pressing chat. A failed lookup is answered with a "not found"
     * alert and nothing else; a found reservation is sent to the chat as its
     * photo with the detail caption.
     */
    method ViewReservationCallback(update: Option<CallbackQuery>, detailsOf: (ChatId, string) -> Result<ReservationDetail>)
      returns (sent: seq<Action>)
      ensures update.None? ==> sent == []
      ensures update.Some? ==>
                var q := update.value;
                var found := detailsOf(q.chatId, CallbackToken.Decode(q.data));
                && (found.Failure? ==> sent == [AnswerCallbackQuery(q.id, NotFoundText, true)])
                && (found.Success? ==>
                      sent == [SendPhoto(q.chatId, found.value.imageUrl, DetailText(found.value), Markdown)])
    {
      if update.None? {
        return [];
      }
      var q := update.value;
      var uuid := CallbackToken.Decode(q.data);
      var tgID := q.chatId;
      var found := detailsOf(tgID, uuid);
      if found.Failure? {
        return [AnswerCallbackQuery(q.id, NotFoundText, true)];
      }
      var reservation := found.value;
      var caption := RenderDetailText(reservation);
      sent := [SendPhoto(tgID, reservation.imageUrl, caption, Markdown)];
    }
  }
}
