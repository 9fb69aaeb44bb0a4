/** The `POST /bookings` handler (routes/bookings.js): presence check of the
    four required properties, insert into the bookings table, then the
    notification e-mail. The database and the mail transport are not
    modelled; their outcomes are parameters. */
module Bookings {
  import opened Http
  import opened Mailer

  /** A stored row of the bookings table. The four required columns are
      strings; `message` is NULL when the request left it out. */
  datatype BookingRow = BookingRow(
    name: string, email: string, phone: string, location: string, message: Option<string>)

  /** The JSON body the handler responds with. `Saved` is `{success: true}`. */
  datatype Body = Failure(error: string) | Saved

  const MissingFields: string := "All fields are required"
  const MailFailed: string := "Booking saved but email failed to send"

  /** The string-or-missing values JavaScript treats as false. */
  const Blank: set<Field> := {Undefined, Null, Str("")}

  /** The handler's presence check: every one of name, email, phone and
      location is truthy. The message is not inspected. */
  function HasRequiredFields(b: BookingDetails): (ok: bool)
    ensures !ok <==> b.name in Blank || b.email in Blank || b.phone in Blank || b.location in Blank
  {
    BlankIsFalsy(b.name);
    BlankIsFalsy(b.email);
    BlankIsFalsy(b.phone);
    BlankIsFalsy(b.location);
    Truthy(b.name) && Truthy(b.email) && Truthy(b.phone) && Truthy(b.location)
  }

  /** The blank values are exactly the falsy ones. */
  lemma BlankIsFalsy(f: Field)
    ensures !Truthy(f) <==> f in Blank
  {
    match f
    case Undefined =>
    case Null =>
    case Str(s) => if s != "" { assert f != Str(""); }
  }

  /** The row the INSERT writes for a validated booking. */
  function RowOf(b: BookingDetails): (row: BookingRow)
    requires HasRequiredFields(b)
  {
    BookingRow(b.name.s, b.email.s, b.phone.s, b.location.s, Bind(b.message))
  }

  /** A stored booking has all four required columns non-empty. */
  predicate Complete(row: BookingRow)
  {
    row.name != "" && row.email != "" && row.phone != "" && row.location != ""
  }

  /** The row stored for a validated booking is complete and holds exactly
      the submitted values. */
  lemma StoredRowIsSubmission(b: BookingDetails)
    requires HasRequiredFields(b)
    ensures Complete(RowOf(b))
    ensures Str(RowOf(b).name) == b.name && Str(RowOf(b).email) == b.email
    ensures Str(RowOf(b).phone) == b.phone && Str(RowOf(b).location) == b.location
    ensures RowOf(b).message == Bind(b.message)
  {
  }

  /** Validation never depends on the message. */
  lemma MessageNotValidated(b: BookingDetails, message: Field)
    ensures HasRequiredFields(b.(message := message)) == HasRequiredFields(b)
  {
  }

  /** The bookings table. */
  class BookingTable {
    var rows: seq<BookingRow>

    ghost predicate Valid()
      reads this
    {
      forall i :: 0 <= i < |rows| ==> Complete(rows[i])
    }

    constructor ()
      ensures Valid() && rows == []
    {
      rows := [];
    }

    /** Handles one submission. `insertError` is the outcome of the INSERT,
        `mailError` that of sending the message; `notified` is the message
        handed to the transport, if any. */
    method Submit(b: BookingDetails, insertError: Option<string>, mailbox: string, mailError: Option<string>)
      returns (r: Response<Body>, notified: Option<MailOptions>)
      requires Valid()
      modifies this
      ensures Valid()
      ensures !HasRequiredFields(b) ==>
        r == Response(400, Failure(MissingFields)) && notified == None && rows == old(rows)
      ensures HasRequiredFields(b) && insertError.Some? ==>
        r == Response(500, Failure(insertError.value)) && notified == None && rows == old(rows)
      ensures HasRequiredFields(b) && insertError.None? ==>
        rows == old(rows) + [RowOf(b)] && notified == Some(BookingEmail(b, mailbox))
      ensures HasRequiredFields(b) && insertError.None? && mailError.None? ==>
        r == Response(200, Saved)
      ensures HasRequiredFields(b) && insertError.None? && mailError.Some? ==>
        r == Response(500, Failure(MailFailed))
    {
      if !HasRequiredFields(b) {
        return Response(400, Failure(MissingFields)), None;
      }
      if insertError.Some? {
        return Response(500, Failure(insertError.value)), None;
      }
      StoredRowIsSubmission(b);
      rows := rows + [RowOf(b)];
      notified := Some(BookingEmail(b, mailbox));
      if mailError.None? {
        r := Response(200, Saved);
      } else {
        r := Response(500, Failure(MailFailed));
      }
    }
  }

  /** From any table of stored bookings, whatever the mail outcome, a
      successful insert leaves the same table: the old rows and the new one. */
  method NotificationDoesNotAffectStorage(start: seq<BookingRow>, b: BookingDetails,
                                          mailbox: string, mailError: string)
    returns (withMail: seq<BookingRow>, withFailure: seq<BookingRow>)
    requires forall i :: 0 <= i < |start| ==> Complete(start[i])
    requires HasRequiredFields(b)
    ensures withMail == withFailure == start + [RowOf(b)]
  {
    var t1 := new BookingTable();
    t1.rows := start;
    var _, _ := t1.Submit(b, None, mailbox, None);
    var t2 := new BookingTable();
    t2.rows := start;
    var _, _ := t2.Submit(b, None, mailbox, Some(mailError));
    withMail, withFailure := t1.rows, t2.rows;
  }
}
