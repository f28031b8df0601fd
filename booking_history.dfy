/**
 * The booking history page: once the signed-in user's e-mail is known it
 * retrieves the room bookings, the PC bookings and the food orders, keeps
 * in each collection only the records owned by that e-mail, and stores each
 * result in its own slot. A retrieval that fails leaves its slot as it was.
 *
 * The e-mail slot holds "" where the page holds `null`: both are falsy,
 * and the e-mail is only ever tested for truth and compared with `===`.
 */
module BookingHistory {
  import opened Wrappers
  import PcDetails

  datatype RoomBooking = RoomBooking(roomId: int, date: string, time: string, status: string, userEmail: string)

  datatype FoodOrder = FoodOrder(id: string, date: string, totalPrice: int, email: string)

  /** The outcome of one retrieval: the parsed collection, or a failure anywhere in fetch, parse or filter. */
  datatype Fetch<T> = Ok(data: seq<T>) | Fail

  /** Which retrieval failed, as written to the console as an error. */
  datatype Source = Rooms | Pcs | Food

  const ROOMS_URL := "http://localhost:5000/bookings"
  const PCS_URL := "http://localhost:5000/pcbookinghistory"
  const FOOD_URL := "http://localhost:5000/orderDetails"

  /** Room and PC bookings are owned through `userEmail`. */
  function RoomOwner(b: RoomBooking): string { b.userEmail }
  function PcOwner(b: PcDetails.Booking): string { b.userEmail }
  /** Food orders are owned through `email`. */
  function FoodOwner(o: FoodOrder): string { o.email }

  /** `Array.filter` keeping the records whose owner field equals `email`. */
  function FilterByOwner<T>(records: seq<T>, owner: T -> string, email: string): (r: seq<T>)
    ensures |r| <= |records|
    ensures forall x :: x in r ==> x in records && owner(x) == email
  {
    if records == [] then []
    else if owner(records[0]) == email then [records[0]] + FilterByOwner(records[1..], owner, email)
    else FilterByOwner(records[1..], owner, email)
  }

  /** `a` is `b` with some elements removed, the rest in their original order. */
  ghost predicate IsSubsequence<T>(a: seq<T>, b: seq<T>)
    decreases |b|
  {
    a == [] || (b != [] && ((a[0] == b[0] && IsSubsequence(a[1..], b[1..])) || IsSubsequence(a, b[1..])))
  }

  /**
   * Every matching record is kept exactly as often as it occurs, and no
   * other record is kept: completeness, and nothing added or duplicated.
   */
  lemma {:induction false} FilterCounts<T>(records: seq<T>, owner: T -> string, email: string, x: T)
    ensures multiset(FilterByOwner(records, owner, email))[x]
         == if owner(x) == email then multiset(records)[x] else 0
  {
    if records != [] {
      FilterCounts(records[1..], owner, email, x);
      assert records == [records[0]] + records[1..];
    }
  }

  /** Every record whose owner matches is kept. */
  lemma FilterComplete<T>(records: seq<T>, owner: T -> string, email: string, x: T)
    requires x in records && owner(x) == email
    ensures x in FilterByOwner(records, owner, email)
  {
    FilterCounts(records, owner, email, x);
  }

  /** The kept records appear in their original relative order. */
  lemma {:induction false} FilterOrdered<T>(records: seq<T>, owner: T -> string, email: string)
    ensures IsSubsequence(FilterByOwner(records, owner, email), records)
  {
    if records != [] {
      FilterOrdered(records[1..], owner, email);
      var rest := FilterByOwner(records[1..], owner, email);
      if owner(records[0]) == email {
        assert ([records[0]] + rest)[1..] == rest;
      }
    }
  }

  /** A collection whose records all match is kept whole. */
  lemma {:induction false} FilterKeepsOwned<T>(records: seq<T>, owner: T -> string, email: string)
    requires forall x :: x in records ==> owner(x) == email
    ensures FilterByOwner(records, owner, email) == records
  {
    if records != [] {
      FilterKeepsOwned(records[1..], owner, email);
      assert records == [records[0]] + records[1..];
    }
  }

  /** Filtering an already filtered collection by the same e-mail changes nothing. */
  lemma FilterIdempotent<T>(records: seq<T>, owner: T -> string, email: string)
    ensures FilterByOwner(FilterByOwner(records, owner, email), owner, email)
         == FilterByOwner(records, owner, email)
  {
    FilterKeepsOwned(FilterByOwner(records, owner, email), owner, email);
  }

  /** A PC booking that passed validation for this user is listed in the user's PC history once stored. */
  lemma StoredBookingListed(pc: PcDetails.Pc, date: string, time: string, duration: int,
                            selected: int, now: int, userEmail: string, store: seq<PcDetails.Booking>)
    requires PcDetails.Validate(pc, date, time, duration, selected, now, userEmail).Validated?
    requires PcDetails.Validate(pc, date, time, duration, selected, now, userEmail).record in store
    ensures PcDetails.Validate(pc, date, time, duration, selected, now, userEmail).record
            in FilterByOwner(store, PcOwner, userEmail)
  {
    var rec := PcDetails.Validate(pc, date, time, duration, selected, now, userEmail).record;
    FilterComplete(store, PcOwner, userEmail, rec);
  }

  /**
   * A slot after its retrieval completed: the owned part of a fetched
   * collection, or the slot unchanged when the retrieval failed.
   */
  function Receive<T>(slot: seq<T>, outcome: Fetch<T>, owner: T -> string, email: string): (r: seq<T>)
    ensures outcome.Fail? ==> r == slot
    ensures outcome.Ok? ==> forall x :: x in r ==> x in outcome.data && owner(x) == email
    ensures outcome.Ok? ==> forall x :: x in outcome.data && owner(x) == email ==> x in r
  {
    match outcome
    case Fail => slot
    case Ok(data) =>
      var r := FilterByOwner(data, owner, email);
      forall x | x in data && owner(x) == email ensures x in r {
        FilterComplete(data, owner, email, x);
      }
      r
  }

  /** The console errors a retrieval writes: its source, when it fails. */
  function Failures<T>(source: Source, outcome: Fetch<T>): (log: seq<Source>)
    ensures log == [] <==> outcome.Ok?
    ensures outcome.Fail? ==> log == [source]
  {
    if outcome.Fail? then [source] else []
  }

  /** The three history slots with the session e-mail and what the page has done. */
  class Page {
    var userEmail: string
    var roomBookings: seq<RoomBooking>
    var pcBookings: seq<PcDetails.Booking>
    var foodOrders: seq<FoodOrder>
    var requested: seq<string>
    var navigations: seq<string>
    var log: seq<Source>  // console errors of failed retrievals

    /** Every record shown belongs to the session e-mail. */
    ghost predicate Scoped()
      reads this
    {
      && (forall b :: b in roomBookings ==> b.userEmail == userEmail)
      && (forall b :: b in pcBookings ==> b.userEmail == userEmail)
      && (forall o :: o in foodOrders ==> o.email == userEmail)
    }

    /** The initial state: three empty slots and no e-mail. */
    constructor()
      ensures userEmail == ""
      ensures roomBookings == [] && pcBookings == [] && foodOrders == []
      ensures requested == [] && navigations == [] && log == []
      ensures Scoped()
    {
      userEmail := "";
      roomBookings, pcBookings, foodOrders := [], [], [];
      requested, navigations, log := [], [], [];
    }

    /** The authentication listener: record the user's e-mail, or move to the login route. */
    method OnAuthStateChanged(user: Option<string>)
      modifies this`userEmail, this`navigations
      ensures user.Some? ==> userEmail == user.value && navigations == old(navigations)
      ensures user.None? ==> userEmail == old(userEmail) && navigations == old(navigations) + [PcDetails.LOGIN_ROUTE]
      ensures user == Some(old(userEmail)) || user.None? ==> (old(Scoped()) ==> Scoped())
    {
      match user {
        case Some(email) => userEmail := email;
        case None => navigations := navigations + [PcDetails.LOGIN_ROUTE];
      }
    }

    /** The room retrieval's completion; the other slots are untouched. */
    method ReceiveRooms(outcome: Fetch<RoomBooking>, email: string)
      modifies this`roomBookings, this`log
      ensures roomBookings == Receive(old(roomBookings), outcome, RoomOwner, email)
      ensures log == old(log) + Failures(Rooms, outcome)
    {
      match outcome {
        case Ok(data) => roomBookings := FilterByOwner(data, RoomOwner, email);
        case Fail => log := log + [Rooms];
      }
    }

    /** The PC retrieval's completion; the other slots are untouched. */
    method ReceivePcs(outcome: Fetch<PcDetails.Booking>, email: string)
      modifies this`pcBookings, this`log
      ensures pcBookings == Receive(old(pcBookings), outcome, PcOwner, email)
      ensures log == old(log) + Failures(Pcs, outcome)
    {
      match outcome {
        case Ok(data) => pcBookings := FilterByOwner(data, PcOwner, email);
        case Fail => log := log + [Pcs];
      }
    }

    /** The food order retrieval's completion; the other slots are untouched. */
    method ReceiveFood(outcome: Fetch<FoodOrder>, email: string)
      modifies this`foodOrders, this`log
      ensures foodOrders == Receive(old(foodOrders), outcome, FoodOwner, email)
      ensures log == old(log) + Failures(Food, outcome)
    {
      match outcome {
        case Ok(data) => foodOrders := FilterByOwner(data, FoodOwner, email);
        case Fail => log := log + [Food];
      }
    }

    /**
     * The retrieval effect: nothing happens until an e-mail is known; then
     * the three collections are requested and each completion fills its
     * own slot.
     */
    method Load(rooms: Fetch<RoomBooking>, pcs: Fetch<PcDetails.Booking>, food: Fetch<FoodOrder>)
      modifies this`roomBookings, this`pcBookings, this`foodOrders, this`requested, this`log
      ensures old(userEmail) == "" ==>
        && roomBookings == old(roomBookings) && pcBookings == old(pcBookings)
        && foodOrders == old(foodOrders) && requested == old(requested) && log == old(log)
      ensures old(userEmail) != "" ==>
        && requested == old(requested) + [ROOMS_URL, PCS_URL, FOOD_URL]
        && roomBookings == Receive(old(roomBookings), rooms, RoomOwner, userEmail)
        && pcBookings == Receive(old(pcBookings), pcs, PcOwner, userEmail)
        && foodOrders == Receive(old(foodOrders), food, FoodOwner, userEmail)
        && log == old(log) + Failures(Rooms, rooms) + Failures(Pcs, pcs) + Failures(Food, food)
      ensures old(Scoped()) ==> Scoped()
    {
      if userEmail != "" {
        requested := requested + [ROOMS_URL, PCS_URL, FOOD_URL];
        ReceiveRooms(rooms, userEmail);
        ReceivePcs(pcs, userEmail);
        ReceiveFood(food, userEmail);
      }
    }
  }

  /**
   * One user's room collection holding another user's record, food orders
   * unreachable: the room slot keeps only the user's record and the other
   * slots still fill or stay empty independently.
   */
  method ScenarioIsolation()
    returns (rooms: seq<RoomBooking>, pcs: seq<PcDetails.Booking>, food: seq<FoodOrder>, log: seq<Source>)
    ensures rooms == [RoomBooking(1, "2026-10-20", "10:00", "Confirmed", "a@x.com")]
    ensures pcs == [PcDetails.Booking(2, "PC 02", "2026-10-20", "10:00", 3, 45, "a@x.com")]
    ensures food == [] && log == [Food]
  {
    var page := new Page();
    page.OnAuthStateChanged(Some("a@x.com"));
    var mine := RoomBooking(1, "2026-10-20", "10:00", "Confirmed", "a@x.com");
    var theirs := RoomBooking(2, "2026-10-20", "11:00", "Pending", "b@x.com");
    var pc := PcDetails.Booking(2, "PC 02", "2026-10-20", "10:00", 3, 45, "a@x.com");
    assert RoomOwner(theirs) != "a@x.com";
    assert FilterByOwner([mine], RoomOwner, "a@x.com") == [mine] by {
      assert [mine][1..] == [];
    }
    assert FilterByOwner([theirs, mine], RoomOwner, "a@x.com") == [mine] by {
      assert [theirs, mine][1..] == [mine];
    }
    assert FilterByOwner([pc], PcOwner, "a@x.com") == [pc] by {
      assert [pc][1..] == [];
    }
    page.Load(Ok([theirs, mine]), Ok([pc]), Fail);
    assert page.roomBookings == [mine];
    assert page.pcBookings == [pc];
    assert page.foodOrders == [];
    assert page.log == [Food];
    rooms, pcs, food, log := page.roomBookings, page.pcBookings, page.foodOrders, page.log;
  }
}
