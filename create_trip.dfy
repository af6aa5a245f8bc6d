/**
 * The `POST /trips` route handler: two date gates with early returns, then the
 * creation of one trip with its owner participant, one mail to the owner and
 * the `{ tripIP, tripDestination }` response.
 *
 * Instants are integer milliseconds; the current instant is an input. The
 * trip store and the mail transport are the `trips` and `outbox` sequences,
 * and whether the store write and the mail send succeed is an input too.
 */
module CreateTrip {

  import opened Wrappers
  import ErrorHandler

  type Instant = int
  /** The store's generated identifier. */
  type TripId = nat

  /** The request body, once the route's schema has accepted it. */
  datatype TripRequest = TripRequest(
    destination: string,
    startsAt: Instant,
    endsAt: Instant,
    ownerEmail: string,
    ownerName: string)

  /**
   * The length JavaScript reports for a string: UTF-16 code units, so a
   * character outside the Basic Multilingual Plane counts twice.
   */
  function Utf16Length(s: string): (n: nat)
    ensures |s| <= n <= 2 * |s|
    ensures n == 2 * |s| <==> forall i :: 0 <= i < |s| ==> s[i] as int >= 0x1_0000
  {
    if s == [] then 0 else (if s[0] as int >= 0x1_0000 then 2 else 1) + Utf16Length(s[1..])
  }

  /** The one rule of the body schema kept here: `destination` is at least 4 UTF-16 units long. */
  predicate WellFormed(req: TripRequest) {
    Utf16Length(req.destination) >= 4
  }

  /** Two emoji make a long enough destination; three ASCII letters do not. */
  lemma DestinationLength(startsAt: Instant, endsAt: Instant, email: string, name: string)
    ensures WellFormed(TripRequest("\U{1F600}\U{1F600}", startsAt, endsAt, email, name))
    ensures !WellFormed(TripRequest("Rio", startsAt, endsAt, email, name))
    ensures WellFormed(TripRequest("Rome", startsAt, endsAt, email, name))
  {
  }

  datatype Participant = Participant(email: string, name: string)

  datatype Trip = Trip(
    id: TripId,
    destination: string,
    startsAt: Instant,
    endsAt: Instant,
    participants: seq<Participant>)

  datatype Address = Address(name: string, address: string)

  datatype Mail = Mail(from: Address, to: Address)

  const SENDER := Address("Trip Planner", "tripplanner@mail.er")

  /** The outcome of a call into the store or the mail transport. */
  datatype Attempt = Succeeds | Fails(err: ErrorHandler.Error)

  /** Which date rule a request breaks. */
  datatype DateViolation = StartInPast | EndBeforeStart {
    function Message(): string {
      match this
      case StartInPast => "starts_at must be in the future"
      case EndBeforeStart => "starts_at must be before ends_at"
    }
  }

  /** What the handler produces. */
  datatype Reply =
    | Rejected(status: int, error: string)              // rep.status(400).send({ error })
    | Created(tripIP: TripId, tripDestination: string)   // the returned object, sent as 200
    | Threw(err: ErrorHandler.Error)                     // a collaborator failed; the error propagates

  /** The whole state the handler touches. */
  datatype Db = Db(trips: seq<Trip>, outbox: seq<Mail>, nextId: TripId)

  /**
   * The two date gates, in the handler's order. Both comparisons are strict:
   * a start equal to now and an end equal to the start are accepted.
   */
  function CheckDates(startsAt: Instant, endsAt: Instant, now: Instant): (r: Option<DateViolation>)
    ensures r == Some(StartInPast) <==> now > startsAt
    ensures r == Some(EndBeforeStart) <==> now <= startsAt && endsAt < startsAt
    ensures r == None <==> now <= startsAt <= endsAt
  {
    if now > startsAt then Some(StartInPast)
    else if endsAt < startsAt then Some(EndBeforeStart)
    else None
  }

  /** The trip the store creates for a request: its fields and the owner as sole participant. */
  function NewTrip(id: TripId, req: TripRequest): (t: Trip)
    ensures WellFormed(req) && req.startsAt <= req.endsAt ==> StoredShape(t)
    ensures t.id == id && |t.participants| == 1
  {
    Trip(id, req.destination, req.startsAt, req.endsAt, [Participant(req.ownerEmail, req.ownerName)])
  }

  /** A stored trip has a long enough destination, a non-inverted range and one participant. */
  predicate StoredShape(t: Trip) {
    Utf16Length(t.destination) >= 4 && t.startsAt <= t.endsAt && |t.participants| == 1
  }

  /**
   * The store's invariant: identifiers lie below the next one and are
   * distinct, every trip has the stored shape, and there are never more mails
   * than trips.
   */
  predicate Consistent(db: Db) {
    && (forall i :: 0 <= i < |db.trips| ==> db.trips[i].id < db.nextId && StoredShape(db.trips[i]))
    && (forall i, j :: 0 <= i < j < |db.trips| ==> db.trips[i].id != db.trips[j].id)
    && |db.outbox| <= |db.trips|
  }

  /**
   * One request, handled against a state. This is the specification the
   * `TripService.CreateTrip` method is proved against.
   */
  function Step(db: Db, req: TripRequest, now: Instant, store: Attempt, mail: Attempt): (r: (Db, Reply))
    // Trips and mails are only ever appended, one of each at most, and the
    // identifier counter moves exactly when a trip is stored.
    ensures r.0.trips == db.trips || r.0.trips == db.trips + [NewTrip(db.nextId, req)]
    ensures r.0.nextId == db.nextId + |r.0.trips| - |db.trips|
    ensures r.0.outbox == db.outbox + (if r.1.Created? then [Mail(SENDER, Address(req.ownerName, req.ownerEmail))] else [])
    // A `Created` reply always comes with its trip stored.
    ensures r.1.Created? ==> r.0.trips == db.trips + [NewTrip(db.nextId, req)]
  {
    match CheckDates(req.startsAt, req.endsAt, now)
    case Some(v) => (db, Rejected(400, v.Message()))
    case None =>
      match store
      case Fails(e) => (db, Threw(e))
      case Succeeds =>
        var trip := NewTrip(db.nextId, req);
        var stored := db.(trips := db.trips + [trip], nextId := db.nextId + 1);
        match mail
        case Fails(e) => (stored, Threw(e))
        case Succeeds => (stored.(outbox := stored.outbox + [Mail(SENDER, Address(req.ownerName, req.ownerEmail))]), Created(trip.id, trip.destination))
  }

  /** A past start is rejected whatever the end is, and nothing is written or sent. */
  lemma PastStartRejected(db: Db, req: TripRequest, now: Instant, store: Attempt, mail: Attempt)
    requires now > req.startsAt
    ensures Step(db, req, now, store, mail) == (db, Rejected(400, "starts_at must be in the future"))
  {
  }

  /** A start equal to now passes the first gate. */
  lemma StartAtNowPasses(db: Db, req: TripRequest, store: Attempt, mail: Attempt)
    ensures Step(db, req, req.startsAt, store, mail).1 != Rejected(400, "starts_at must be in the future")
  {
  }

  /** An end before a start that is not past is rejected, and nothing is written or sent. */
  lemma EndBeforeStartRejected(db: Db, req: TripRequest, now: Instant, store: Attempt, mail: Attempt)
    requires now <= req.startsAt && req.endsAt < req.startsAt
    ensures Step(db, req, now, store, mail) == (db, Rejected(400, "starts_at must be before ends_at"))
  {
  }

  /** A request whose end equals its start (not past) passes both gates. */
  lemma EqualEndPasses(db: Db, req: TripRequest, now: Instant, store: Attempt, mail: Attempt)
    requires now <= req.startsAt && req.endsAt == req.startsAt
    ensures !Step(db, req, now, store, mail).1.Rejected?
  {
  }

  /** When both rules are broken the past-start error is the one returned. */
  lemma StartGateFirst(db: Db, req: TripRequest, now: Instant, store: Attempt, mail: Attempt)
    requires now > req.startsAt && req.endsAt < req.startsAt
    ensures Step(db, req, now, store, mail).1 == Rejected(400, "starts_at must be in the future")
  {
  }

  /** A request is rejected exactly when it breaks a date rule, and a rejection leaves the state as it was. */
  lemma RejectionHasNoEffect(db: Db, req: TripRequest, now: Instant, store: Attempt, mail: Attempt)
    ensures Step(db, req, now, store, mail).1.Rejected? <==> !(now <= req.startsAt <= req.endsAt)
    ensures Step(db, req, now, store, mail).1.Rejected? ==> Step(db, req, now, store, mail).0 == db
  {
  }

  /**
   * On success exactly one trip is appended, holding the request's fields and
   * the owner as its only participant; exactly one mail goes from the fixed
   * sender to the owner; the reply carries the new id and the destination.
   */
  lemma SuccessEffects(db: Db, req: TripRequest, now: Instant)
    requires now <= req.startsAt <= req.endsAt
    ensures var (db', reply) := Step(db, req, now, Succeeds, Succeeds);
      && |db'.trips| == |db.trips| + 1
      && db'.trips[..|db.trips|] == db.trips
      && var t := db'.trips[|db.trips|];
      && t.destination == req.destination && t.startsAt == req.startsAt && t.endsAt == req.endsAt
      && t.participants == [Participant(req.ownerEmail, req.ownerName)]
      && db'.outbox == db.outbox + [Mail(Address("Trip Planner", "tripplanner@mail.er"), Address(req.ownerName, req.ownerEmail))]
      && reply == Created(t.id, req.destination)
  {
  }

  /** A failing store write propagates its error and changes nothing. */
  lemma StoreFailureHasNoEffect(db: Db, req: TripRequest, now: Instant, e: ErrorHandler.Error, mail: Attempt)
    requires now <= req.startsAt <= req.endsAt
    ensures Step(db, req, now, Fails(e), mail) == (db, Threw(e))
  {
  }

  /** A failing mail send propagates its error, but the trip stays stored and no mail is logged. */
  lemma MailFailureKeepsTrip(db: Db, req: TripRequest, now: Instant, e: ErrorHandler.Error)
    requires now <= req.startsAt <= req.endsAt
    ensures var (db', reply) := Step(db, req, now, Succeeds, Fails(e));
      reply == Threw(e) && db'.trips == db.trips + [NewTrip(db.nextId, req)] && db'.outbox == db.outbox
  {
  }

  /** Every request keeps the store's invariant. */
  lemma StepPreservesConsistent(db: Db, req: TripRequest, now: Instant, store: Attempt, mail: Attempt)
    requires Consistent(db) && WellFormed(req)
    ensures Consistent(Step(db, req, now, store, mail).0)
  {
  }

  /** Two identical requests that both succeed store two trips with distinct identifiers. */
  lemma NotIdempotent(db: Db, req: TripRequest, now: Instant)
    requires Consistent(db) && WellFormed(req)
    requires now <= req.startsAt <= req.endsAt
    ensures var (db1, reply1) := Step(db, req, now, Succeeds, Succeeds);
      var (db2, reply2) := Step(db1, req, now, Succeeds, Succeeds);
      && reply1.Created? && reply2.Created? && reply1.tripIP != reply2.tripIP
      && |db2.trips| == |db.trips| + 2
      && Consistent(db2)
  {
  }

  /** One request handed to the handler, with the collaborators' outcomes for it. */
  datatype Call = Call(req: TripRequest, now: Instant, store: Attempt, mail: Attempt)

  /** The mail each `Created` reply stands for, in the order of the calls. */
  function CreatedMails(calls: seq<Call>, replies: seq<Reply>): seq<Mail>
    requires |calls| == |replies|
  {
    if calls == [] then []
    else
      (if replies[0].Created? then [Mail(SENDER, Address(calls[0].req.ownerName, calls[0].req.ownerEmail))] else [])
      + CreatedMails(calls[1..], replies[1..])
  }

  /**
   * Requests handled one after another against the same state. Stored trips
   * are never changed or removed, and the mails sent are exactly those to the
   * owners of the calls answered `Created`, in order.
   */
  function Run(db: Db, calls: seq<Call>): (r: (Db, seq<Reply>))
    ensures |r.1| == |calls|
    ensures db.trips <= r.0.trips
    ensures r.0.outbox == db.outbox + CreatedMails(calls, r.1)
    decreases |calls|
  {
    if calls == [] then (db, [])
    else
      var c := calls[0];
      var (db1, reply) := Step(db, c.req, c.now, c.store, c.mail);
      var (db2, replies) := Run(db1, calls[1..]);
      assert ([reply] + replies)[1..] == replies;
      assert db2.outbox == db.outbox + CreatedMails(calls, [reply] + replies);
      (db2, [reply] + replies)
  }

  /** Any sequence of schema-valid requests keeps the store's invariant. */
  lemma {:induction false} RunPreservesConsistent(db: Db, calls: seq<Call>)
    requires Consistent(db)
    requires forall k :: 0 <= k < |calls| ==> WellFormed(calls[k].req)
    ensures Consistent(Run(db, calls).0)
    decreases |calls|
  {
    if calls != [] {
      var c := calls[0];
      StepPreservesConsistent(db, c.req, c.now, c.store, c.mail);
      RunPreservesConsistent(Step(db, c.req, c.now, c.store, c.mail).0, calls[1..]);
    }
  }

  /** The trip store and the outbox, updated in place by the handler. */
  class TripService {
    var trips: seq<Trip>
    var outbox: seq<Mail>
    var nextId: TripId

    function State(): Db
      reads this
    {
      Db(trips, outbox, nextId)
    }

    predicate Valid()
      reads this
    {
      Consistent(State())
    }

    constructor ()
      ensures Valid() && trips == [] && outbox == [] && nextId == 0
    {
      trips, outbox, nextId := [], [], 0;
    }

    /** The route handler. */
    method CreateTrip(req: TripRequest, now: Instant, store: Attempt, mail: Attempt) returns (reply: Reply)
      requires Valid() && WellFormed(req)
      modifies this
      ensures Valid()
      ensures (State(), reply) == Step(old(State()), req, now, store, mail)
      ensures reply.Rejected? ==> trips == old(trips) && outbox == old(outbox)
    {
      ghost var before := State();
      if now > req.startsAt {
        return Rejected(400, StartInPast.Message());
      }
      if req.endsAt < req.startsAt {
        return Rejected(400, EndBeforeStart.Message());
      }
      if store.Fails? {
        return Threw(store.err);
      }
      var trip := NewTrip(nextId, req);
      trips := trips + [trip];
      nextId := nextId + 1;
      StepPreservesConsistent(before, req, now, store, mail);
      if mail.Fails? {
        return Threw(mail.err);
      }
      outbox := outbox + [Mail(SENDER, Address(req.ownerName, req.ownerEmail))];
      reply := Created(trip.id, trip.destination);
    }
  }
}
