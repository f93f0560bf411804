# Reservation notifications and queries of the QuietGrove Telegram bot, in Dafny

This project models the Telegram adapter of the QuietGrove booking back end
(`internal/integrations/telegram/reservations.go`). It covers the four things
the adapter does with reservations:

- **New-reservation notifications.** `ReservationCreatedForAdmin` renders the
  operators' notification once. It sends that text to every operator chat in
  list order and stops at the first failed send. `ReservationCreatedForUser`
  renders the guest's confirmation and sends it once to the guest's chat.
- **The "my reservations" command.** `myReservationsHandler` asks the
  reservation query port for the chat's reservations. It answers with exactly
  one message:
  - the retry-later notice when the lookup fails;
  - the empty-state notice when there are no reservations;
  - otherwise the list title, with one button per reservation.
- **The reservation button.** `viewReservationCallback` decodes the
  reservation UUID from the button's callback data and looks the reservation
  up for the pressing chat. A failed lookup gets a "not found" alert. A found
  reservation gets its photo, with the rendered details as the caption.
- **The pieces these share.** The `DD.MM.YYYY` and `DD.MM` date layouts, the
  optional add-ons block (bathhouse slots) and the `view_resv_` callback token.
  There is also the map from status wire values to display labels.

Layout, one module per component:

| file | module | what it holds |
|---|---|---|
| `wrappers.dfy` | `Wrappers` | `Option`, `Result` |
| `text.dfy` | `Text` | texts as lines (`Unlines`, `Lines`), `%d` printing, zero padding |
| `dates.dfy` | `Dates` | dates and the two date layouts |
| `token.dfy` | `CallbackToken` | encoding and decoding of the button token |
| `status.dfy` | `Status` | status labels |
| `wording.dfy` | `Wording` | the fixed wording: headings, labels, separators |
| `render.dfy` | `Render` | the three message texts and the loop that appends add-ons |
| `bot.dfy` | `Bot` | bot calls as `Action` values and transport `Outcome`s |
| `telegram.dfy` | `Telegram` | the `Adapter` class and its four operations |

How the model is built:

- **Texts.** Each text is specified as a list of lines. The methods build the
  text as the service does, by appending to a string in a loop. They are
  proved to produce exactly those lines, each ended by a newline. `Lines`
  splits a text back into lines. The lemma `Text.LinesUnlines` shows that
  splitting gives back the lines written. The `*TextLines` lemmas use it to
  state, on the rendered text itself, where each line is.
- **Bot calls.** Every bot call (`SendMessage`, `AnswerCallbackQuery`,
  `SendPhoto`) is an `Action` value. The operations return the calls they
  make, in order.
- **Transport results.** Whether a send succeeded is an input `Outcome`. The
  fan-out takes one per operator chat, in list order.
- **The query port.** It is a function parameter, from the lookup key to the
  port's answer. So the contracts can say which key is looked up: the
  requesting chat, and the UUID decoded from the callback data.
- **Wording.** The fixed Russian and emoji wording is kept as named string
  constants, each on one line.

Three behaviours of the code that the model keeps as they are:

- **Token decoding.** Callback data without the `view_resv_` prefix is not
  rejected. `strings.TrimPrefix` passes it on unchanged, and it is looked up
  as a UUID.
- **Operator fan-out.** It returns on the first failed send, and later
  operators get nothing. Failures are not collected.
- **Detail caption.** Add-on dates are shown as stored. The two notifications
  rewrite `-` to `.`.

## Model

| member | source | states |
|---|---|---|
| `Render.DashesToDots` | internal/integrations/telegram/reservations.go:38 | the add-on date keeps its length; every `-` becomes `.`, every other character is kept, and no `-` remains |
| `Render.BulletEnding` | internal/integrations/telegram/reservations.go:31-41 | an add-on line ends with `" (" + option + ")"` when a fill option is set, and with the bare separating blank when none is |
| `Render.AppendAddOns` | internal/integrations/telegram/reservations.go:28-44 | appends nothing for an empty add-on list; otherwise a blank line, the heading, then one bullet line per add-on in input order |
| `Render.RenderAdminText` | internal/integrations/telegram/reservations.go:15-44 | the text built by formatting and appending is the operators' notification, written line by line |
| `Render.RenderGuestText` | internal/integrations/telegram/reservations.go:64-92 | the text built by formatting and appending is the guest's confirmation, written line by line |
| `Render.RenderDetailText` | internal/integrations/telegram/reservations.go:182-217 | the caption built by formatting and appending is the detail view, with the status shown by its label |
| `Render.AdminTextLines` | internal/integrations/telegram/reservations.go:15-44 | when no text field (house, guest name and phone, add-on fields) contains a line break: split into lines, the notification is its seven header lines; the add-ons block follows if and only if the list is non-empty, and then line 9+i is add-on i with a dotted date |
| `Render.GuestTextLines` | internal/integrations/telegram/reservations.go:64-92 | when neither the house nor any add-on field contains a line break (the guest's name and phone are not printed): split into lines, the confirmation is six header lines ending with the contact number; the add-ons block follows if and only if the list is non-empty, and then line 8+i is add-on i |
| `Render.DetailTextLines` | internal/integrations/telegram/reservations.go:194-217 | when neither the house name nor any add-on field contains a line break: split into lines, the caption is five header lines, the last one carrying the status label; the add-ons block follows if and only if the list is non-empty, with its own heading and dates as stored |
| `Dates.FormatDateFields` | internal/integrations/telegram/reservations.go:24 | `DD.MM.YYYY` has ten characters with dots at positions 2 and 5; its three digit groups read back as day, month and year |
| `Dates.DayMonthIsPrefix` | internal/integrations/telegram/reservations.go:137 | the button layout `DD.MM` is the first five characters of `DD.MM.YYYY` |
| `Text.IntToString` | internal/integrations/telegram/reservations.go:21-22 | `%d` prints the canonical decimal digits of the number: at least one digit, no leading zero (a lone `0` for zero), denoting the number's magnitude, behind a `-` when it is negative, on one line |
| `CallbackToken.Encode` | internal/integrations/telegram/reservations.go:141 | callback data is the prefix `view_resv_` followed by the UUID |
| `CallbackToken.Decode` | internal/integrations/telegram/reservations.go:166 | data with the prefix decodes to what follows it; data without it is returned unchanged |
| `CallbackToken.DecodeEncode` | internal/integrations/telegram/reservations.go:166 | decoding the data built for a UUID gives back exactly that UUID |
| `CallbackToken.EncodeDecode` | internal/integrations/telegram/reservations.go:166 | data carrying the prefix is the encoding of what it decodes to |
| `CallbackToken.EncodeInjective` | internal/integrations/telegram/reservations.go:141 | different UUIDs give different callback data |
| `CallbackToken.DecodePassThrough` | internal/integrations/telegram/reservations.go:166 | data lacking the prefix passes through unchanged and is never rejected |
| `Status.Label` | internal/integrations/telegram/reservations.go:182-192 | the label is non-empty exactly for `confirmed`, `cancelled`, `checked_in` and `check_out`; any other value gets the empty label |
| `Status.LabelsDistinct` | internal/integrations/telegram/reservations.go:182-192 | the four known statuses have four different labels |
| `Telegram.BuildKeyboard` | internal/integrations/telegram/reservations.go:133-144 | one row per reservation, in input order; each row holds one button with the `DD.MM → DD.MM` label and the reservation's token |
| `Telegram.KeyboardDecodes` | internal/integrations/telegram/reservations.go:139-144 | each row's button decodes to its own reservation's UUID; reservations with different UUIDs get different callback data |
| `Telegram.Adapter.SendToAdmins` | internal/integrations/telegram/reservations.go:46-58 | the same text goes to the operator chats in list order; if send k is the first to fail, exactly chats 0..k were tried and send k's error is returned; the result is success only if every send succeeded, and then every chat was tried |
| `Telegram.Adapter.ReservationCreatedForAdmin` | internal/integrations/telegram/reservations.go:12-59 | the operators' notification, rendered once, is what every tried operator chat receives, with the same first-failure cut-off and error as the fan-out |
| `Telegram.Adapter.ReservationCreatedForUser` | internal/integrations/telegram/reservations.go:94-104 | exactly one Markdown send of the guest's confirmation to the given chat; its error is returned unchanged |
| `Telegram.Adapter.MyReservationsHandler` | internal/integrations/telegram/reservations.go:107-158 | exactly one plain message to the requesting chat: retry-later notice without buttons when the lookup fails; empty-state notice without buttons for no reservations; otherwise the list title and one button row per reservation |
| `Telegram.Adapter.ViewReservationCallback` | internal/integrations/telegram/reservations.go:160-230 | no call without a callback query; otherwise the lookup uses the pressing chat and the decoded UUID; failure gives only a "not found" answer with `ShowAlert` set; success gives only a Markdown photo send with the image URL and the rendered caption |

## Left out

- `internal/app/usecases.go` is not part of this model. It only wires up
  constructors that are not shown and returns the first constructor error. The
  one-hour verification window is only passed on there, and its enforcement is
  outside the shown code.
- The Telegram transport is not modelled: `context`, HTTP, Markdown parsing by
  the platform, message ids. Each call is an `Action`, and the transport's
  answer is an input `Outcome`.
- Logging (`a.logger.Error`) is left out. A failed reply in the two handlers is
  only logged, so the modelled replies are the same whether or not they were
  delivered.
- The query port (`GetByTelegramID`, `GetDetailsByUUID`) is not modelled,
  including its ownership check. Its answer is a function parameter.
- Go nil dereferences are not modelled: a command update without a message, or
  a callback query without its message. Both would panic in the service. The
  model takes the chat identifier as given.
- Time zones and time of day are left out of `time.Time`. A date is
  (year, month, day). The layout lemmas assume a year of at most four digits
  and do not cover negative years.
- Go's formatting of `time.Time` is modelled only for the `02.01.2006` and
  `02.01` layouts used here.
- `Render.AdminTextLines`, `Render.GuestTextLines` and `Render.DetailTextLines`
  state the line structure only for input whose printed free-text fields hold
  no line break. Such a break in the house, the guest's name or phone, or an
  add-on's name, date, times or fill option splits the rendered text into more
  lines. The texts themselves (`Render.Render*Text`) are specified for every
  input.
- Concurrency between handler invocations is not modelled. Each invocation is
  modelled on its own.
