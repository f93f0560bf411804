/**
 * The three texts the bot renders for reservations: the operators'
 * notification, the guest's confirmation and the caption of the reservation
 * photo. Each is a fixed header followed, only when the reservation has
 * add-on bookings (bathhouse slots), by a blank line, a heading and one
 * bullet line per add-on in booking order.
 *
 * Each text is specified as the lines it consists of (`AdminLines`,
 * `GuestLines`, `DetailLines`); the methods build it the way the service
 * does, by appending to a string in a loop, and are proved to produce
 * `Unlines` of those lines.
 */
module Render {
  import opened Wrappers
  import opened Text
  import opened Dates
  import Status
  import opened Wording

  /** An add-on booked with the reservation (a bathhouse slot). */
  datatype AddOn = AddOn(name: string, date: string, timeFrom: string, timeTo: string, fillOption: Option<string>)

  /** Snapshot of a new reservation, as the reservation usecase hands it to the notifier. */
  datatype ReservationCreatedMessage = ReservationCreatedMessage(
    house: string,
    guestName: string,
    guestPhone: string,
    checkIn: Date,
    checkOut: Date,
    guestsCount: int,
    totalPrice: int,
    bathhouse: seq<AddOn>)

  /** A reservation as the query port returns it for the detail view. */
  datatype ReservationDetail = ReservationDetail(
    uuid: string,
    houseName: string,
    checkIn: Date,
    checkOut: Date,
    guestsCount: int,
    totalPrice: int,
    status: string,
    bathhouse: seq<AddOn>,
    imageUrl: string)

  /** Whether an add-on's date is shown with its dashes turned into dots. */
  datatype DateStyle = Dotted | Verbatim

  /** `strings.ReplaceAll(date, "-", ".")`. */
  function DashesToDots(s: string): (r: string)
    ensures |r| == |s|
    ensures forall i :: 0 <= i < |s| ==> r[i] == (if s[i] == '-' then '.' else s[i])
    ensures '-' !in r
  {
    if s == [] then [] else [if s[0] == '-' then '.' else s[0]] + DashesToDots(s[1..])
  }

  /** The parenthesised fill option, or nothing when the add-on has none. */
  function FillSuffix(fillOption: Option<string>): string {
    match fillOption
    case None => ""
    case Some(opt) => "(" + opt + ")"
  }

  /** One bullet line of the add-ons block, without its newline. */
  function Bullet(a: AddOn, style: DateStyle): string {
    var date := if style == Dotted then DashesToDots(a.date) else a.date;
    BulletMark + a.name + NameSep + date + FromSep + a.timeFrom + ToSep + a.timeTo + " " + FillSuffix(a.fillOption)
  }

  /**
   * A bullet line ends with the fill option in parentheses when one is set,
   * and with the separating blank alone when none is.
   */
  lemma BulletEnding(a: AddOn, style: DateStyle)
    ensures var b := Bullet(a, style);
      && (a.fillOption.None? ==> b[|b| - 1] == ' ')
      && (a.fillOption.Some? ==>
            var fill := "(" + a.fillOption.value + ")";
            |b| > |fill| && b[|b| - |fill| - 1..] == " " + fill)
  {
  }

  /** The bullet lines of the add-ons, in booking order. */
  function Bullets(addOns: seq<AddOn>, style: DateStyle): (r: seq<string>)
    ensures |r| == |addOns|
  {
    if addOns == [] then []
    else Bullets(addOns[..|addOns| - 1], style) + [Bullet(addOns[|addOns| - 1], style)]
  }

  /** The k-th bullet line is that of the k-th add-on. */
  lemma {:induction false} BulletsAt(addOns: seq<AddOn>, style: DateStyle, k: nat)
    requires k < |addOns|
    ensures Bullets(addOns, style)[k] == Bullet(addOns[k], style)
    decreases |addOns|
  {
    if k < |addOns| - 1 {
      BulletsAt(addOns[..|addOns| - 1], style, k);
    }
  }

  /** The add-ons block as lines: absent when there is nothing booked. */
  function AddOnSection(title: string, addOns: seq<AddOn>, style: DateStyle): seq<string> {
    if |addOns| == 0 then [] else ["", title] + Bullets(addOns, style)
  }

  /** "DD.MM.YYYY → DD.MM.YYYY". */
  function StayDates(checkIn: Date, checkOut: Date): string {
    FormatDate(checkIn) + Arrow + FormatDate(checkOut)
  }

  function AdminHeaderLines(m: ReservationCreatedMessage): seq<string> {
    [ AdminTitle,
      HouseLabel + m.house,
      GuestLabel + m.guestName,
      PhoneLabel + m.guestPhone,
      StayLabel + StayDates(m.checkIn, m.checkOut),
      GuestsLabel + IntToString(m.guestsCount) + GuestsUnit,
      PriceLabel + IntToString(m.totalPrice) + Rouble ]
  }

  function GuestHeaderLines(m: ReservationCreatedMessage): seq<string> {
    [ GuestTitle,
      HouseLabel + m.house,
      StayLabel + StayDates(m.checkIn, m.checkOut),
      GuestsLabel + IntToString(m.guestsCount) + GuestsUnit,
      StayPriceLabel + IntToString(m.totalPrice) + Rouble,
      ContactLine ]
  }

  function DetailHeaderLines(d: ReservationDetail): seq<string> {
    [ HouseLabel + d.houseName,
      StayLabel + StayDates(d.checkIn, d.checkOut),
      GuestsLabel + IntToString(d.guestsCount) + GuestsUnit,
      StayPriceLabel + IntToString(d.totalPrice) + RoubleTight,
      StatusPrefix + Status.Label(d.status) ]
  }

  function AdminLines(m: ReservationCreatedMessage): seq<string> {
    AdminHeaderLines(m) + AddOnSection(AddOnsTitle, m.bathhouse, Dotted)
  }

  function GuestLines(m: ReservationCreatedMessage): seq<string> {
    GuestHeaderLines(m) + AddOnSection(AddOnsTitle, m.bathhouse, Dotted)
  }

  function DetailLines(d: ReservationDetail): seq<string> {
    DetailHeaderLines(d) + AddOnSection(DetailAddOnsTitle, d.bathhouse, Verbatim)
  }

  /** Operators' notification text. */
  function AdminText(m: ReservationCreatedMessage): string {
    Unlines(AdminLines(m))
  }

  /** Guest's confirmation text. */
  function GuestText(m: ReservationCreatedMessage): string {
    Unlines(GuestLines(m))
  }

  /** Caption of the reservation photo. */
  function DetailText(d: ReservationDetail): string {
    Unlines(DetailLines(d))
  }

  // ---------------------------------------------------------------------------
  // Building the texts as the service does

  /**
   * Appends the add-ons block to `text`: nothing for an empty list, else the
   * heading and, add-on by add-on, its bullet line.
   */
  method AppendAddOns(text: string, title: string, addOns: seq<AddOn>, style: DateStyle) returns (r: string)
    ensures r == text + Unlines(AddOnSection(title, addOns, style))
  {
    r := text;
    if |addOns| > 0 {
      r := r + "\n" + title + "\n";
      ghost var head := r;
      var i := 0;
      while i < |addOns|
        invariant 0 <= i <= |addOns|
        invariant r == head + Unlines(Bullets(addOns[..i], style))
      {
        var a := addOns[i];
        var fillOpt := "";
        if a.fillOption.Some? {
          fillOpt := "(" + a.fillOption.value + ")";
        }
        var date := if style == Dotted then DashesToDots(a.date) else a.date;
        var line := BulletMark + a.name + NameSep + date + FromSep + a.timeFrom + ToSep + a.timeTo + " " + fillOpt;
        BulletFields(a, style, date, fillOpt);
        AppendBullet(head, addOns, style, i, line);
        r := r + line + "\n";
        i := i + 1;
      }
      assert addOns[..i] == addOns;
      SectionText(text, title, addOns, style);
    }
  }

  /** The line the loop formats for an add-on is its bullet line. */
  lemma BulletFields(a: AddOn, style: DateStyle, date: string, fillOpt: string)
    requires date == (if style == Dotted then DashesToDots(a.date) else a.date)
    requires fillOpt == (if a.fillOption.Some? then "(" + a.fillOption.value + ")" else "")
    ensures BulletMark + a.name + NameSep + date + FromSep + a.timeFrom + ToSep + a.timeTo + " " + fillOpt == Bullet(a, style)
  {
  }

  /** Writing the next add-on's line extends the bullets written so far by that add-on. */
  lemma AppendBullet(head: string, addOns: seq<AddOn>, style: DateStyle, i: nat, line: string)
    requires i < |addOns| && line == Bullet(addOns[i], style)
    ensures head + Unlines(Bullets(addOns[..i], style)) + line + "\n" == head + Unlines(Bullets(addOns[..i + 1], style))
  {
    BulletsGrow(addOns, style, i);
    AppendLine(head, Bullets(addOns[..i], style), line);
  }

  /** The bullets of one more add-on are the bullets so far and its own line. */
  lemma BulletsGrow(addOns: seq<AddOn>, style: DateStyle, i: nat)
    requires i < |addOns|
    ensures Bullets(addOns[..i + 1], style) == Bullets(addOns[..i], style) + [Bullet(addOns[i], style)]
  {
    var p := addOns[..i + 1];
    assert p[..|p| - 1] == addOns[..i] && p[|p| - 1] == addOns[i];
  }

  /** The heading written as text, then the bullets: the add-ons block as lines. */
  lemma SectionText(text: string, title: string, addOns: seq<AddOn>, style: DateStyle)
    requires addOns != []
    ensures text + "\n" + title + "\n" + Unlines(Bullets(addOns, style)) == text + Unlines(AddOnSection(title, addOns, style))
  {
    HeadingLines(text, title);
    AppendLines(text, ["", title], Bullets(addOns, style));
  }

  lemma HeadingLines(text: string, title: string)
    ensures text + "\n" + title + "\n" == text + Unlines(["", title])
  {
    UnlinesSnoc([""], title);
    UnlinesSnoc([], "");
    assert [""] + [title] == ["", title];
    assert [] + [""] == [""];
  }

  /** Text of the operators' notification. */
  method RenderAdminText(m: ReservationCreatedMessage) returns (text: string)
    ensures text == AdminText(m)
  {
    text := Unlines(AdminHeaderLines(m));
    text := AppendAddOns(text, AddOnsTitle, m.bathhouse, Dotted);
    UnlinesAppend(AdminHeaderLines(m), AddOnSection(AddOnsTitle, m.bathhouse, Dotted));
  }

  /** Text of the guest's confirmation. */
  method RenderGuestText(m: ReservationCreatedMessage) returns (text: string)
    ensures text == GuestText(m)
  {
    text := Unlines(GuestHeaderLines(m));
    text := AppendAddOns(text, AddOnsTitle, m.bathhouse, Dotted);
    UnlinesAppend(GuestHeaderLines(m), AddOnSection(AddOnsTitle, m.bathhouse, Dotted));
  }

  /** Caption of the reservation photo, with the status shown by its label. */
  method RenderDetailText(d: ReservationDetail) returns (caption: string)
    ensures caption == DetailText(d)
  {
    caption := Unlines(DetailHeaderLines(d));
    caption := AppendAddOns(caption, DetailAddOnsTitle, d.bathhouse, Verbatim);
    UnlinesAppend(DetailHeaderLines(d), AddOnSection(DetailAddOnsTitle, d.bathhouse, Verbatim));
  }

  // ---------------------------------------------------------------------------
  // What the texts look like, line by line

  /** No free-text field of an add-on breaks a line. */
  predicate AddOnOnOneLine(a: AddOn) {
    && NoNewline(a.name) && NoNewline(a.date) && NoNewline(a.timeFrom) && NoNewline(a.timeTo)
    && (a.fillOption.Some? ==> NoNewline(a.fillOption.value))
  }

  predicate MessageOnOneLinePerField(m: ReservationCreatedMessage) {
    && NoNewline(m.house) && NoNewline(m.guestName) && NoNewline(m.guestPhone)
    && forall i :: 0 <= i < |m.bathhouse| ==> AddOnOnOneLine(m.bathhouse[i])
  }

  /** The guest's confirmation prints the house and the add-ons, not the guest's name or phone. */
  predicate GuestOnOneLinePerField(m: ReservationCreatedMessage) {
    && NoNewline(m.house)
    && forall i :: 0 <= i < |m.bathhouse| ==> AddOnOnOneLine(m.bathhouse[i])
  }

  predicate DetailOnOneLinePerField(d: ReservationDetail) {
    && NoNewline(d.houseName)
    && forall i :: 0 <= i < |d.bathhouse| ==> AddOnOnOneLine(d.bathhouse[i])
  }

  lemma BulletOnOneLine(a: AddOn, style: DateStyle)
    requires AddOnOnOneLine(a)
    ensures NoNewline(Bullet(a, style))
  {
    var date := if style == Dotted then DashesToDots(a.date) else a.date;
    assert NoNewline(date) by {
      if style == Dotted {
        assert forall i :: 0 <= i < |date| ==> date[i] == '.' || date[i] == a.date[i];
      }
    }
  }

  /** An add-ons block of one-line add-ons is made of one-line lines. */
  lemma SectionOnOneLine(title: string, addOns: seq<AddOn>, style: DateStyle)
    requires NoNewline(title)
    requires forall i :: 0 <= i < |addOns| ==> AddOnOnOneLine(addOns[i])
    ensures forall i :: 0 <= i < |AddOnSection(title, addOns, style)| ==> NoNewline(AddOnSection(title, addOns, style)[i])
  {
    if addOns != [] {
      var bullets := Bullets(addOns, style);
      forall i | 0 <= i < |bullets|
        ensures NoNewline(bullets[i])
      {
        BulletsAt(addOns, style, i);
        BulletOnOneLine(addOns[i], style);
      }
      assert NoNewline("");
    }
  }

  /**
   * The lines of a text made of a header and an add-ons block: the header's
   * lines, and then, exactly when there are add-ons, a blank line, the
   * heading and one bullet per add-on in booking order.
   */
  lemma SectionedLines(header: seq<string>, title: string, addOns: seq<AddOn>, style: DateStyle)
    requires forall i :: 0 <= i < |header| ==> NoNewline(header[i])
    requires NoNewline(title)
    requires forall i :: 0 <= i < |addOns| ==> AddOnOnOneLine(addOns[i])
    ensures Lines(Unlines(header + AddOnSection(title, addOns, style))) == header + AddOnSection(title, addOns, style)
  {
    var section := AddOnSection(title, addOns, style);
    SectionOnOneLine(title, addOns, style);
    var all := header + section;
    assert forall i :: 0 <= i < |all| ==> NoNewline(all[i]) by {
      forall i | 0 <= i < |all| ensures NoNewline(all[i]) {
        if i < |header| { assert all[i] == header[i]; } else { assert all[i] == section[i - |header|]; }
      }
    }
    LinesUnlines(all);
  }

  /** Where each line of a header followed by an add-ons block sits. */
  lemma SectionShape(header: seq<string>, title: string, addOns: seq<AddOn>, style: DateStyle)
    ensures var ls := header + AddOnSection(title, addOns, style);
      && |ls| >= |header| && ls[..|header|] == header
      && (|ls| == |header| <==> addOns == [])
      && (addOns != [] ==>
            && |ls| == |header| + 2 + |addOns|
            && ls[|header|] == "" && ls[|header| + 1] == title
            && forall i :: 0 <= i < |addOns| ==> ls[|header| + 2 + i] == Bullet(addOns[i], style))
  {
    var section := AddOnSection(title, addOns, style);
    var ls := header + section;
    assert ls[..|header|] == header;
    if addOns != [] {
      var bullets := Bullets(addOns, style);
      assert section == ["", title] + bullets;
      forall i | 0 <= i < |addOns|
        ensures ls[|header| + 2 + i] == Bullet(addOns[i], style)
      {
        assert ls[|header| + 2 + i] == section[2 + i] == bullets[i];
        BulletsAt(addOns, style, i);
      }
    }
  }

  lemma StayDatesOnOneLine(checkIn: Date, checkOut: Date)
    ensures NoNewline(StayDates(checkIn, checkOut))
  {
    FormatsOnOneLine(checkIn);
    FormatsOnOneLine(checkOut);
  }

  lemma AdminHeaderOnOneLine(m: ReservationCreatedMessage)
    requires MessageOnOneLinePerField(m)
    ensures forall i :: 0 <= i < |AdminHeaderLines(m)| ==> NoNewline(AdminHeaderLines(m)[i])
  {
    StayDatesOnOneLine(m.checkIn, m.checkOut);
    var h := AdminHeaderLines(m);
    forall i | 0 <= i < |h|
      ensures NoNewline(h[i])
    {
      if i == 0 { assert h[i] == AdminTitle; }
      else if i == 1 { assert h[i] == HouseLabel + m.house; }
      else if i == 2 { assert h[i] == GuestLabel + m.guestName; }
      else if i == 3 { assert h[i] == PhoneLabel + m.guestPhone; }
      else if i == 4 { assert h[i] == StayLabel + StayDates(m.checkIn, m.checkOut); }
      else if i == 5 { assert h[i] == GuestsLabel + IntToString(m.guestsCount) + GuestsUnit; }
      else { assert h[i] == PriceLabel + IntToString(m.totalPrice) + Rouble; }
    }
  }

  lemma GuestHeaderOnOneLine(m: ReservationCreatedMessage)
    requires GuestOnOneLinePerField(m)
    ensures forall i :: 0 <= i < |GuestHeaderLines(m)| ==> NoNewline(GuestHeaderLines(m)[i])
  {
    StayDatesOnOneLine(m.checkIn, m.checkOut);
    var h := GuestHeaderLines(m);
    forall i | 0 <= i < |h|
      ensures NoNewline(h[i])
    {
      if i == 0 { assert h[i] == GuestTitle; }
      else if i == 1 { assert h[i] == HouseLabel + m.house; }
      else if i == 2 { assert h[i] == StayLabel + StayDates(m.checkIn, m.checkOut); }
      else if i == 3 { assert h[i] == GuestsLabel + IntToString(m.guestsCount) + GuestsUnit; }
      else if i == 4 { assert h[i] == StayPriceLabel + IntToString(m.totalPrice) + Rouble; }
      else { assert h[i] == ContactLine; }
    }
  }

  lemma DetailHeaderOnOneLine(d: ReservationDetail)
    requires DetailOnOneLinePerField(d)
    ensures forall i :: 0 <= i < |DetailHeaderLines(d)| ==> NoNewline(DetailHeaderLines(d)[i])
  {
    StayDatesOnOneLine(d.checkIn, d.checkOut);
    var h := DetailHeaderLines(d);
    forall i | 0 <= i < |h|
      ensures NoNewline(h[i])
    {
      if i == 0 { assert h[i] == HouseLabel + d.houseName; }
      else if i == 1 { assert h[i] == StayLabel + StayDates(d.checkIn, d.checkOut); }
      else if i == 2 { assert h[i] == GuestsLabel + IntToString(d.guestsCount) + GuestsUnit; }
      else if i == 3 { assert h[i] == StayPriceLabel + IntToString(d.totalPrice) + RoubleTight; }
      else { assert h[i] == StatusPrefix + Status.Label(d.status); }
    }
  }

  /**
   * The operators' notification: seven header lines (title, house, guest,
   * phone, "DD.MM.YYYY → DD.MM.YYYY", guest count, price), then the add-ons
   * block if and only if add-ons were booked, with each add-on's date
   * written with dots.
   */
  lemma AdminTextLines(m: ReservationCreatedMessage)
    requires MessageOnOneLinePerField(m)
    ensures var ls := Lines(AdminText(m));
      && |ls| >= 7 && ls[..7] == AdminHeaderLines(m)
      && (|ls| == 7 <==> m.bathhouse == [])
      && (m.bathhouse != [] ==>
            && |ls| == 9 + |m.bathhouse| && ls[7] == "" && ls[8] == AddOnsTitle
            && forall i :: 0 <= i < |m.bathhouse| ==> ls[9 + i] == Bullet(m.bathhouse[i], Dotted))
  {
    AdminHeaderOnOneLine(m);
    SectionedLines(AdminHeaderLines(m), AddOnsTitle, m.bathhouse, Dotted);
    SectionShape(AdminHeaderLines(m), AddOnsTitle, m.bathhouse, Dotted);
  }

  /**
   * The guest's confirmation: six header lines ending with the contact
   * number, then the add-ons block if and only if add-ons were booked.
   */
  lemma GuestTextLines(m: ReservationCreatedMessage)
    requires GuestOnOneLinePerField(m)
    ensures var ls := Lines(GuestText(m));
      && |ls| >= 6 && ls[..6] == GuestHeaderLines(m) && ls[5] == ContactLine
      && (|ls| == 6 <==> m.bathhouse == [])
      && (m.bathhouse != [] ==>
            && |ls| == 8 + |m.bathhouse| && ls[6] == "" && ls[7] == AddOnsTitle
            && forall i :: 0 <= i < |m.bathhouse| ==> ls[8 + i] == Bullet(m.bathhouse[i], Dotted))
  {
    GuestHeaderOnOneLine(m);
    SectionedLines(GuestHeaderLines(m), AddOnsTitle, m.bathhouse, Dotted);
    SectionShape(GuestHeaderLines(m), AddOnsTitle, m.bathhouse, Dotted);
  }

  /**
   * The photo caption: five header lines, the last giving the status label,
   * then its own add-ons heading and the add-ons with their dates as stored,
   * if and only if add-ons were booked.
   */
  lemma DetailTextLines(d: ReservationDetail)
    requires DetailOnOneLinePerField(d)
    ensures var ls := Lines(DetailText(d));
      && |ls| >= 5 && ls[..5] == DetailHeaderLines(d)
      && ls[4] == StatusPrefix + Status.Label(d.status)
      && (|ls| == 5 <==> d.bathhouse == [])
      && (d.bathhouse != [] ==>
            && |ls| == 7 + |d.bathhouse| && ls[5] == "" && ls[6] == DetailAddOnsTitle
            && forall i :: 0 <= i < |d.bathhouse| ==> ls[7 + i] == Bullet(d.bathhouse[i], Verbatim))
  {
    DetailHeaderOnOneLine(d);
    SectionedLines(DetailHeaderLines(d), DetailAddOnsTitle, d.bathhouse, Verbatim);
    SectionShape(DetailHeaderLines(d), DetailAddOnsTitle, d.bathhouse, Verbatim);
  }
}
