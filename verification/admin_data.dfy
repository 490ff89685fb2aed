/** The administrators' data provider: four loaders that fetch the newest 100
    users, events, posts and payments, keeping an empty list and the error
    message when a query fails, and the dashboard counters computed from what
    they return. Backend replies are inputs; a reply may also be `null`, on
    which the counting itself throws and every counter is zeroed. */
module AdminData {
  import opened Common
  import opened Entities
  import AdminPayments

  datatype Query = Query(entity: string, order: string, limit: nat)

  /** What the backend answers to a list query. */
  datatype Reply<T> = Rows(rows: seq<T>) | Null | Failed(message: string)

  /** A loader's state: `data` is `None` for a `null` list. */
  datatype Loaded<T> = Loaded(loading: bool, data: Option<seq<T>>, error: Option<string>)

  /** The state a loader settles in, and the list it returns. A failure keeps
      an empty list and the message. */
  function Settle<T>(reply: Reply<T>): (r: Loaded<T>)
    ensures !r.loading
    ensures reply.Failed? ==> r.data == Some([]) && r.error == Some(reply.message)
    ensures reply.Rows? ==> r.data == Some(reply.rows) && r.error == None
    ensures reply.Null? ==> r.data == None && r.error == None
  {
    match reply
    case Rows(rows) => Loaded(false, Some(rows), None)
    case Null => Loaded(false, None, None)
    case Failed(message) => Loaded(false, Some([]), Some(message))
  }

  datatype DashboardStats = DashboardStats(totalUsers: nat, totalEvents: nat, totalMedia: nat,
                                           totalRevenue: real, pendingPayments: nat)

  const ZeroStats: DashboardStats := DashboardStats(0, 0, 0, 0.0, 0)

  datatype StatsState = StatsState(loading: bool, stats: DashboardStats, error: Option<string>)

  /** The counters from the four lists the loaders returned; a `null` list
      makes the computation throw, which zeroes every counter and records the
      thrown error's message. */
  function Calculate(users: Option<seq<User>>, events: Option<seq<Event>>, media: Option<seq<Post>>,
                     payments: Option<seq<Payment>>, thrown: string): (r: StatsState)
    ensures !r.loading
    ensures users.None? || events.None? || media.None? || payments.None? ==>
      r.stats == ZeroStats && r.error == Some(thrown)
    ensures users.Some? && events.Some? && media.Some? && payments.Some? ==>
      r.error == None
      && r.stats.totalUsers == |users.value| && r.stats.totalEvents == |events.value|
      && r.stats.totalMedia == |media.value|
      && r.stats.totalRevenue == AdminPayments.Stats(payments.value).totalRevenue
      && r.stats.pendingPayments == AdminPayments.Stats(payments.value).pendingPayments
  {
    if users.None? || events.None? || media.None? || payments.None? then
      StatsState(false, ZeroStats, Some(thrown))
    else
      var ps := payments.value;
      StatsState(false,
                 DashboardStats(|users.value|, |events.value|, |media.value|,
                                AdminPayments.Revenue(ps), Count(ps, AdminPayments.IsPending)),
                 None)
  }

  /** The list a loader hands back: the rows, nothing for `null`, and an
      empty list after a failure. */
  function Returned<T>(reply: Reply<T>): Option<seq<T>> {
    Settle(reply).data
  }

  /** A failing loader does not stop the dashboard: its total is zero and the
      others are counted as usual. */
  lemma {:induction false} FailedLoaderStillCounts(msg: string, events: seq<Event>, media: seq<Post>, payments: seq<Payment>, thrown: string)
    ensures var r := Calculate(Returned(Reply<User>.Failed(msg)), Returned(Rows(events)), Returned(Rows(media)),
                               Returned(Rows(payments)), thrown);
      r.error == None && r.stats.totalUsers == 0 && r.stats.totalEvents == |events| && r.stats.totalMedia == |media|
  {
  }

  /** A store answer to a `PageSize` query holds at most `PageSize` rows. */
  predicate WithinPage<T>(reply: Reply<T>) {
    reply.Rows? ==> |reply.rows| <= PageSize
  }

  /** With every answer within the query's limit, no total exceeds it, and the
      pending count exceeds none of the payments returned. */
  lemma {:induction false} TotalsWithinPage(users: Reply<User>, events: Reply<Event>, media: Reply<Post>,
                                            payments: Reply<Payment>, thrown: string)
    requires WithinPage(users) && WithinPage(events) && WithinPage(media) && WithinPage(payments)
    ensures var r := Calculate(Returned(users), Returned(events), Returned(media), Returned(payments), thrown).stats;
      r.totalUsers <= PageSize && r.totalEvents <= PageSize && r.totalMedia <= PageSize
      && r.pendingPayments <= PageSize
  {
  }

  /** The dashboard's pending count and revenue are the payment screen's. */
  lemma {:induction false} DashboardAgreesWithPaymentScreen(users: seq<User>, events: seq<Event>, media: seq<Post>,
                                         payments: seq<Payment>, thrown: string)
    ensures var r := Calculate(Some(users), Some(events), Some(media), Some(payments), thrown).stats;
      var s := AdminPayments.Stats(payments);
      r.totalRevenue == s.totalRevenue && r.pendingPayments == s.pendingPayments
      && r.pendingPayments <= s.totalPayments
  {
  }

  class DataProvider {
    var userData: Loaded<User>
    var eventData: Loaded<Event>
    var mediaData: Loaded<Post>
    var paymentData: Loaded<Payment>
    var dashboard: StatsState
    /** The list queries sent, in order. */
    var queries: seq<Query>

    constructor ()
      ensures userData == Loaded(true, Some([]), None) && eventData == Loaded(true, Some([]), None)
      ensures mediaData == Loaded(true, Some([]), None) && paymentData == Loaded(true, Some([]), None)
      ensures dashboard == StatsState(true, ZeroStats, None) && queries == []
    {
      userData := Loaded(true, Some([]), None);
      eventData := Loaded(true, Some([]), None);
      mediaData := Loaded(true, Some([]), None);
      paymentData := Loaded(true, Some([]), None);
      dashboard := StatsState(true, ZeroStats, None);
      queries := [];
    }

    method LoadUsers(reply: Reply<User>) returns (rows: Option<seq<User>>)
      modifies this
      ensures userData == Settle(reply) && rows == Returned(reply)
      ensures queries == old(queries) + [Query("User", NewestFirst, PageSize)]
      ensures eventData == old(eventData) && mediaData == old(mediaData) && paymentData == old(paymentData)
      ensures dashboard == old(dashboard)
    {
      queries := queries + [Query("User", NewestFirst, PageSize)];
      userData := Settle(reply);
      rows := userData.data;
    }

    method LoadEvents(reply: Reply<Event>) returns (rows: Option<seq<Event>>)
      modifies this
      ensures eventData == Settle(reply) && rows == Returned(reply)
      ensures queries == old(queries) + [Query("Event", NewestFirst, PageSize)]
      ensures userData == old(userData) && mediaData == old(mediaData) && paymentData == old(paymentData)
      ensures dashboard == old(dashboard)
    {
      queries := queries + [Query("Event", NewestFirst, PageSize)];
      eventData := Settle(reply);
      rows := eventData.data;
    }

    method LoadMedia(reply: Reply<Post>) returns (rows: Option<seq<Post>>)
      modifies this
      ensures mediaData == Settle(reply) && rows == Returned(reply)
      ensures queries == old(queries) + [Query("Post", NewestFirst, PageSize)]
      ensures userData == old(userData) && eventData == old(eventData) && paymentData == old(paymentData)
      ensures dashboard == old(dashboard)
    {
      queries := queries + [Query("Post", NewestFirst, PageSize)];
      mediaData := Settle(reply);
      rows := mediaData.data;
    }

    method LoadPayments(reply: Reply<Payment>) returns (rows: Option<seq<Payment>>)
      modifies this
      ensures paymentData == Settle(reply) && rows == Returned(reply)
      ensures queries == old(queries) + [Query("PaymentTransaction", NewestFirst, PageSize)]
      ensures userData == old(userData) && eventData == old(eventData) && mediaData == old(mediaData)
      ensures dashboard == old(dashboard)
    {
      queries := queries + [Query("PaymentTransaction", NewestFirst, PageSize)];
      paymentData := Settle(reply);
      rows := paymentData.data;
    }

    /** `calculateDashboardStats`: all four loaders run, then the counters are
        computed from the lists they returned. */
    method CalculateDashboardStats(users: Reply<User>, events: Reply<Event>, media: Reply<Post>,
                                   payments: Reply<Payment>, thrown: string)
      modifies this
      ensures userData == Settle(users) && eventData == Settle(events)
      ensures mediaData == Settle(media) && paymentData == Settle(payments)
      ensures dashboard == Calculate(Returned(users), Returned(events), Returned(media), Returned(payments), thrown)
      ensures queries == old(queries) + [Query("User", NewestFirst, PageSize), Query("Event", NewestFirst, PageSize),
                                         Query("Post", NewestFirst, PageSize),
                                         Query("PaymentTransaction", NewestFirst, PageSize)]
      ensures forall q :: q in queries[|old(queries)|..] ==> q.order == NewestFirst && q.limit == PageSize
    {
      dashboard := dashboard.(loading := true);
      var u := LoadUsers(users);
      var e := LoadEvents(events);
      var m := LoadMedia(media);
      var p := LoadPayments(payments);
      dashboard := Calculate(u, e, m, p, thrown);
    }
  }
}
