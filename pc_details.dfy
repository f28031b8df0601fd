/**
 * The PC detail page: the static PC catalog, the lookup of the PC named by the
 * route, the validation of a booking request, and the booking attempt that
 * posts the record, reports the store's answer and, on acknowledgement,
 * requests a confirmation e-mail and a move to the PC access page.
 *
 * The instant denoted by the chosen date and time, and the current instant,
 * are integers supplied by the caller (the page computes them with `Date`).
 */
module PcDetails {
  import opened Wrappers

  /** One catalog entry. */
  datatype Pc = Pc(id: int, title: string, description: string, pricePerHour: int, imageUrl: string)

  /** The record posted to the booking store. */
  datatype Booking = Booking(
    pcId: int, title: string, date: string, time: string,
    duration: int, totalCost: int, userEmail: string)

  /** What `handleBooking` decides before it talks to the store. */
  datatype Validation = Invalid(message: string) | Validated(record: Booking)

  /** The store's answer to the POST: the `acknowledged` flag, or a thrown error. */
  datatype Reply = Ack(acknowledged: bool) | TransportFailure

  /** The e-mail service's answer: `success` true, `success` false with a message, or a thrown error. */
  datatype MailReply = Sent | NotSent(message: string) | MailFailure

  /** What the page writes to the console when the confirmation e-mail is not sent. */
  datatype Diagnostic = MailRejected(message: string) | MailError

  const CATALOG: seq<Pc> := [
    Pc(1, "PC 01", "For Daily Use", 10, "/Images/Image1.jpg"),
    Pc(2, "PC 02", "For Programming Purpose", 15, "/Images/Image1.jpg"),
    Pc(3, "PC 03", "For Programming Purpose", 15, "/Images/Image1.jpg"),
    Pc(4, "PC 04", "For Gaming Purpose", 20, "/Images/Image1.jpg"),
    Pc(5, "PC 05", "For Gaming Purpose", 20, "/Images/Image1.jpg")
  ]

  const INCOMPLETE_MESSAGE := "Please select a valid date, time, and duration."
  const PAST_MESSAGE := "You cannot book a PC for a past date or time."
  const REJECTED_MESSAGE := "Failed to book the PC. Please try again."
  const TRANSPORT_MESSAGE := "An error occurred while booking. Please try again later."
  const ACCESS_ROUTE := "/pcaccess"
  const LOGIN_ROUTE := "/login"

  /** The success banner shown once the store acknowledges a booking. */
  function Confirmation(b: Booking): string {
    "Booking confirmed for " + b.title + " on " + b.date + " at " + b.time + "."
  }

  ghost predicate UniqueIds(data: seq<Pc>) {
    forall i, j :: 0 <= i < j < |data| ==> data[i].id != data[j].id
  }

  /** `Array.find` by id: the first entry with that id, if any. */
  function Find(data: seq<Pc>, id: int): (r: Option<Pc>)
    ensures r.None? <==> forall k :: 0 <= k < |data| ==> data[k].id != id
    ensures r.Some? ==>
      exists k :: 0 <= k < |data| && data[k] == r.value && r.value.id == id &&
        forall j :: 0 <= j < k ==> data[j].id != id
  {
    if data == [] then None
    else if data[0].id == id then Some(data[0])
    else
      var r := Find(data[1..], id);
      assert forall k :: 1 <= k < |data| ==> data[k] == data[1..][k - 1];
      r
  }

  /**
   * The PC shown by the page. The route parameter is given already parsed
   * by `parseInt`; `None` stands for `NaN`, which equals no id.
   */
  function SelectedPc(parsedId: Option<int>): (r: Option<Pc>)
    ensures r.Some? ==> r.value in CATALOG && parsedId == Some(r.value.id)
    ensures r.None? <==> (parsedId.None? || !(1 <= parsedId.value <= 5))
  {
    match parsedId
    case None => None
    case Some(id) => Find(CATALOG, id)
  }

  /** Catalog ids are unique and every catalog price is positive. */
  lemma CatalogWellFormed()
    ensures UniqueIds(CATALOG)
    ensures forall k :: 0 <= k < |CATALOG| ==> CATALOG[k].id == k + 1 && CATALOG[k].pricePerHour > 0
  {
  }

  /** With unique ids, the lookup of an entry's id returns that entry. */
  lemma FindUnique(data: seq<Pc>, k: nat)
    requires UniqueIds(data) && k < |data|
    ensures Find(data, data[k].id) == Some(data[k])
  {
  }

  /** Ids 1 to 5 find the matching catalog entry; every other id finds nothing. */
  lemma CatalogLookup(id: int)
    ensures 1 <= id <= 5 ==> Find(CATALOG, id) == Some(CATALOG[id - 1])
    ensures !(1 <= id <= 5) ==> Find(CATALOG, id) == None
  {
    CatalogWellFormed();
    if 1 <= id <= 5 {
      FindUnique(CATALOG, id - 1);
    }
  }

  /** The completeness check of `handleBooking`: date and time set, duration positive. */
  predicate Incomplete(date: string, time: string, duration: int) {
    date == "" || time == "" || duration <= 0
  }

  /**
   * The checks of `handleBooking`, in their order, and the record built when
   * both pass. `selected` is the instant of the chosen date and time, `now`
   * the current instant; only an instant strictly before now is refused.
   */
  function Validate(pc: Pc, date: string, time: string, duration: int,
                    selected: int, now: int, userEmail: string): (r: Validation)
    ensures Incomplete(date, time, duration) ==> r == Invalid(INCOMPLETE_MESSAGE)
    ensures !Incomplete(date, time, duration) && selected < now ==> r == Invalid(PAST_MESSAGE)
    ensures r.Validated? <==> !Incomplete(date, time, duration) && now <= selected
    ensures r.Validated? ==>
      && r.record.pcId == pc.id && r.record.title == pc.title
      && r.record.date == date && r.record.time == time
      && r.record.duration == duration && r.record.userEmail == userEmail
      && r.record.totalCost == pc.pricePerHour * duration
  {
    if Incomplete(date, time, duration) then Invalid(INCOMPLETE_MESSAGE)
    else if selected < now then Invalid(PAST_MESSAGE)
    else Validated(Booking(pc.id, pc.title, date, time, duration, pc.pricePerHour * duration, userEmail))
  }

  /** A booking of a catalog PC costs at least one hour's price, hence a positive amount. */
  lemma CatalogCostPositive(pc: Pc, date: string, time: string, duration: int,
                            selected: int, now: int, userEmail: string)
    requires pc in CATALOG
    requires Validate(pc, date, time, duration, selected, now, userEmail).Validated?
    ensures Validate(pc, date, time, duration, selected, now, userEmail).record.totalCost >= pc.pricePerHour > 0
  {
    CatalogWellFormed();
    var r := Validate(pc, date, time, duration, selected, now, userEmail);
    assert duration >= 1;
    assert r.record.totalCost == pc.pricePerHour * (duration - 1) + pc.pricePerHour;
  }

  /** PC 02 for three hours, starting no earlier than now, costs 45. */
  lemma ScenarioPc02(date: string, userEmail: string, selected: int, now: int)
    requires date != "" && now <= selected
    ensures SelectedPc(Some(2)) == Some(CATALOG[1])
    ensures Validate(CATALOG[1], date, "10:00", 3, selected, now, userEmail)
         == Validated(Booking(2, "PC 02", date, "10:00", 3, 45, userEmail))
  {
    CatalogLookup(2);
  }

  /** What the page logs for each e-mail reply; nothing when the mail was sent. */
  function MailLog(reply: MailReply): (log: seq<Diagnostic>)
    ensures log == [] <==> reply == Sent
  {
    match reply
    case Sent => []
    case NotSent(m) => [MailRejected(m)]
    case MailFailure => [MailError]
  }

  /**
   * The page's state. `posted` are the bodies sent to the booking store,
   * `emails` the bookings a confirmation e-mail was requested for,
   * `navigations` the routes the page moved (or scheduled a move) to,
   * `log` what it wrote to the console about e-mails.
   */
  class Page {
    const pc: Option<Pc>
    var userEmail: string
    var error: string
    var success: string
    var posted: seq<Booking>
    var emails: seq<Booking>
    var navigations: seq<string>
    var log: seq<Diagnostic>

    /**
     * Mounting the page: look up the PC of the route and read the signed-in
     * user; with nobody signed in the page moves to the login route.
     */
    constructor(parsedId: Option<int>, currentUser: Option<string>)
      ensures pc == SelectedPc(parsedId)
      ensures userEmail == (if currentUser.Some? then currentUser.value else "")
      ensures navigations == (if currentUser.Some? then [] else [LOGIN_ROUTE])
      ensures error == "" && success == ""
      ensures posted == [] && emails == [] && log == []
    {
      pc := SelectedPc(parsedId);
      error, success := "", "";
      posted, emails, log := [], [], [];
      if currentUser.Some? {
        userEmail := currentUser.value;
        navigations := [];
      } else {
        userEmail := "";
        navigations := [LOGIN_ROUTE];
      }
    }

    /** The validation the page applies to the form's current values. */
    ghost function Check(date: string, time: string, duration: int, selected: int, now: int): Validation
      reads this
      requires pc.Some?
    {
      Validate(pc.value, date, time, duration, selected, now, userEmail)
    }

    /**
     * `sendEmail`: request the confirmation e-mail; a rejection or an error
     * is only logged, so neither message on the page changes.
     */
    method SendEmail(b: Booking, reply: MailReply)
      modifies this`emails, this`log
      ensures emails == old(emails) + [b]
      ensures log == old(log) + MailLog(reply)
    {
      emails := emails + [b];
      log := log + MailLog(reply);
    }

    /**
     * `handleBooking`: clear both messages, validate, post the record and
     * turn the store's reply into the success or error message. Only the
     * page with a PC shows the booking button, hence `pc.Some?`.
     */
    method HandleBooking(date: string, time: string, duration: int, selected: int, now: int,
                         reply: Reply, mail: MailReply)
      requires pc.Some?
      modifies this`error, this`success, this`posted, this`emails, this`navigations, this`log
      ensures old(Check(date, time, duration, selected, now)).Invalid? ==>
        && error == old(Check(date, time, duration, selected, now)).message && success == ""
        && posted == old(posted) && emails == old(emails)
        && navigations == old(navigations) && log == old(log)
      ensures old(Check(date, time, duration, selected, now)).Validated? ==>
        var rec := old(Check(date, time, duration, selected, now)).record;
        && posted == old(posted) + [rec]
        && (reply == Ack(true) ==>
              && error == "" && success == Confirmation(rec)
              && emails == old(emails) + [rec] && log == old(log) + MailLog(mail)
              && navigations == old(navigations) + [ACCESS_ROUTE])
        && (reply == Ack(false) ==>
              && error == REJECTED_MESSAGE && success == ""
              && emails == old(emails) && log == old(log) && navigations == old(navigations))
        && (reply == TransportFailure ==>
              && error == TRANSPORT_MESSAGE && success == ""
              && emails == old(emails) && log == old(log) && navigations == old(navigations))
    {
      error := "";
      success := "";
      if date == "" || time == "" || duration <= 0 {
        error := INCOMPLETE_MESSAGE;
        return;
      }
      if selected < now {
        error := PAST_MESSAGE;
        return;
      }
      var details := Booking(pc.value.id, pc.value.title, date, time, duration,
                             pc.value.pricePerHour * duration, userEmail);
      posted := posted + [details];
      match reply {
        case Ack(acknowledged) =>
          if acknowledged {
            success := Confirmation(details);
            SendEmail(details, mail);
            navigations := navigations + [ACCESS_ROUTE];
          } else {
            error := REJECTED_MESSAGE;
          }
        case TransportFailure =>
          error := TRANSPORT_MESSAGE;
      }
    }
  }
}
