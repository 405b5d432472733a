// The sales history page: a filter record, its translation into query
// parameters, the ticket list it loads, and the totals derived from that list.

module History {
  import opened Common

  /** The four filter inputs; every field holds the input's text, "" when empty. */
  datatype Filter = Filter(date_from: string, date_to: string, user_id: string, location_id: string)

  datatype FilterField = DateFrom | DateTo | UserId | LocationId

  function FieldKey(field: FilterField): string {
    match field
    case DateFrom => "date_from"
    case DateTo => "date_to"
    case UserId => "user_id"
    case LocationId => "location_id"
  }

  /** The filter the page starts with: both dates are today, no user, no location. */
  function DefaultFilter(today: string): (f: Filter)
    ensures f.date_from == f.date_to == today
    ensures f.user_id == "" && f.location_id == ""
  {
    Filter(today, today, "", "")
  }

  /** `{ ...filters, [name]: value }` for one of the four inputs. */
  function WithField(f: Filter, field: FilterField, value: string): (r: Filter)
    ensures FieldValue(r, FieldKey(field)) == value
    ensures forall other :: other != field ==> FieldValue(r, FieldKey(other)) == FieldValue(f, FieldKey(other))
  {
    match field
    case DateFrom => f.(date_from := value)
    case DateTo => f.(date_to := value)
    case UserId => f.(user_id := value)
    case LocationId => f.(location_id := value)
  }

  // ---------------------------------------------------------------------------
  // Query parameters

  type Pair = (string, string)

  /** `Object.keys(filters)`, in declaration order. */
  const FilterKeys: seq<string> := ["date_from", "date_to", "user_id", "location_id"]

  /** `new URLSearchParams(filters)`: one pair per key, in declaration order. */
  function Entries(f: Filter): (ps: seq<Pair>)
    ensures |ps| == |FilterKeys|
    ensures forall i :: 0 <= i < |ps| ==> ps[i].0 == FilterKeys[i]
  {
    [("date_from", f.date_from), ("date_to", f.date_to), ("user_id", f.user_id), ("location_id", f.location_id)]
  }

  /** `filters[key]` for one of the four keys. */
  function FieldValue(f: Filter, key: string): string {
    if key == "date_from" then f.date_from
    else if key == "date_to" then f.date_to
    else if key == "user_id" then f.user_id
    else if key == "location_id" then f.location_id
    else ""
  }

  /** `params.delete(key)`: drops every pair named `key` and keeps the others in order. */
  function DeleteKey(ps: seq<Pair>, key: string): (r: seq<Pair>)
    ensures |r| <= |ps|
  {
    if ps == [] then []
    else if ps[0].0 == key then DeleteKey(ps[1..], key)
    else [ps[0]] + DeleteKey(ps[1..], key)
  }

  /** The pairs whose value is not empty, in their original order. */
  function NonEmpty(ps: seq<Pair>): seq<Pair> {
    if ps == [] then []
    else if ps[0].1 == "" then NonEmpty(ps[1..])
    else [ps[0]] + NonEmpty(ps[1..])
  }

  /** The query the history request carries: the non-empty filter fields, in key order. */
  function QueryOf(f: Filter): seq<Pair> {
    NonEmpty(Entries(f))
  }

  /** The first value named `key` in a query, as `URLSearchParams.get` finds it. */
  function Lookup(ps: seq<Pair>, key: string): Option<string> {
    if ps == [] then None
    else if ps[0].0 == key then Some(ps[0].1)
    else Lookup(ps[1..], key)
  }

  /** Reads a query back into a filter; an absent key reads as the empty input. */
  function ParseQuery(ps: seq<Pair>): Filter {
    Filter(
      Lookup(ps, "date_from").GetOr(""),
      Lookup(ps, "date_to").GetOr(""),
      Lookup(ps, "user_id").GetOr(""),
      Lookup(ps, "location_id").GetOr(""))
  }

  /** `params.delete(key)` keeps exactly the pairs not named `key`. */
  lemma {:induction false} DeleteKeyKeepsOthers(ps: seq<Pair>, key: string)
    ensures forall p :: p in DeleteKey(ps, key) <==> p in ps && p.0 != key
  {
    if ps != [] {
      DeleteKeyKeepsOthers(ps[1..], key);
      assert ps == [ps[0]] + ps[1..];
    }
  }

  lemma {:induction false} DeleteKeyAppend(a: seq<Pair>, b: seq<Pair>, key: string)
    ensures DeleteKey(a + b, key) == DeleteKey(a, key) + DeleteKey(b, key)
  {
    if a == [] {
      assert a + b == b;
    } else {
      assert (a + b)[0] == a[0];
      assert (a + b)[1..] == a[1..] + b;
      DeleteKeyAppend(a[1..], b, key);
    }
  }

  lemma {:induction false} DeleteKeyAbsent(ps: seq<Pair>, key: string)
    requires forall p :: p in ps ==> p.0 != key
    ensures DeleteKey(ps, key) == ps
  {
    if ps != [] {
      assert ps[0] in ps;
      assert forall p :: p in ps[1..] ==> p in ps;
      DeleteKeyAbsent(ps[1..], key);
    }
  }

  lemma {:induction false} NonEmptyAppend(a: seq<Pair>, b: seq<Pair>)
    ensures NonEmpty(a + b) == NonEmpty(a) + NonEmpty(b)
  {
    if a == [] {
      assert a + b == b;
    } else {
      assert (a + b)[0] == a[0];
      assert (a + b)[1..] == a[1..] + b;
      NonEmptyAppend(a[1..], b);
    }
  }

  /** Every pair that survives `NonEmpty` was in the input. */
  lemma {:induction false} NonEmptySubset(ps: seq<Pair>)
    ensures forall p :: p in NonEmpty(ps) <==> p in ps && p.1 != ""
  {
    if ps != [] {
      NonEmptySubset(ps[1..]);
      assert ps == [ps[0]] + ps[1..];
    }
  }

  /** `filters[key]` reads the value that `Entries` pairs with `key`. */
  lemma EntryValues(f: Filter)
    ensures forall i :: 0 <= i < 4 ==> Entries(f)[i].1 == FieldValue(f, FilterKeys[i])
  {
  }

  /** The four keys are distinct: key `i` occurs nowhere else among the entries. */
  lemma EntryKeysDistinct(f: Filter, i: nat)
    requires i < 4
    ensures forall p :: p in Entries(f)[..i] ==> p.0 != FilterKeys[i]
    ensures forall p :: p in Entries(f)[i + 1..] ==> p.0 != FilterKeys[i]
  {
    var e := Entries(f);
    forall p | p in e[..i] ensures p.0 != FilterKeys[i] {
      var j :| 0 <= j < i && e[..i][j] == p;
    }
    forall p | p in e[i + 1..] ensures p.0 != FilterKeys[i] {
      var j :| 0 <= j < |e[i + 1..]| && e[i + 1..][j] == p;
      assert p == e[i + 1 + j];
    }
  }

  /** One deletion step of `BuildQuery`: dropping an empty field `i` from the partly built query. */
  lemma DeleteStep(f: Filter, i: nat)
    requires i < 4 && Entries(f)[i].1 == ""
    ensures DeleteKey(NonEmpty(Entries(f)[..i]) + Entries(f)[i..], FilterKeys[i])
         == NonEmpty(Entries(f)[..i + 1]) + Entries(f)[i + 1..]
  {
    var e, k := Entries(f), FilterKeys[i];
    EntryKeysDistinct(f, i);
    NonEmptySubset(e[..i]);
    assert e[i..] == [e[i]] + e[i + 1..];
    assert e[..i + 1] == e[..i] + [e[i]];
    NonEmptyAppend(e[..i], [e[i]]);
    DeleteKeyAppend(NonEmpty(e[..i]), e[i..], k);
    DeleteKeyAppend([e[i]], e[i + 1..], k);
    DeleteKeyAbsent(NonEmpty(e[..i]), k);
    DeleteKeyAbsent(e[i + 1..], k);
  }

  /** A step of `BuildQuery` that keeps a non-empty field `i`. */
  lemma KeepStep(f: Filter, i: nat)
    requires i < 4 && Entries(f)[i].1 != ""
    ensures NonEmpty(Entries(f)[..i]) + Entries(f)[i..] == NonEmpty(Entries(f)[..i + 1]) + Entries(f)[i + 1..]
  {
    var e := Entries(f);
    assert e[i..] == [e[i]] + e[i + 1..];
    assert e[..i + 1] == e[..i] + [e[i]];
    NonEmptyAppend(e[..i], [e[i]]);
  }

  /**
   * `fetchTickets`' parameter building: start from every filter field and delete,
   * key by key, those whose value is empty. The result is exactly `QueryOf(f)`.
   */
  method BuildQuery(f: Filter) returns (params: seq<Pair>)
    ensures params == QueryOf(f)
  {
    var all := Entries(f);
    params := all;
    var keys := FilterKeys;
    EntryValues(f);
    for i := 0 to |keys|
      invariant params == NonEmpty(all[..i]) + all[i..]
    {
      if FieldValue(f, keys[i]) == "" {
        DeleteStep(f, i);
        params := DeleteKey(params, keys[i]);
      } else {
        KeepStep(f, i);
      }
    }
    assert all[..|keys|] == all;
  }

  /** The query keeps exactly the non-empty fields, each with its value unchanged. */
  lemma QueryKeepsNonEmptyFields(f: Filter)
    ensures forall p :: p in QueryOf(f) <==> p in Entries(f) && p.1 != ""
  {
    NonEmptySubset(Entries(f));
  }

  /** `key` names at most the first pair of `ps`. */
  predicate KeyUnique(ps: seq<Pair>, key: string) {
    forall i, j :: 0 <= i < j < |ps| && ps[i].0 == key ==> ps[j].0 != key
  }

  lemma {:induction false} LookupAbsent(ps: seq<Pair>, key: string)
    requires forall i :: 0 <= i < |ps| ==> ps[i].0 != key
    ensures Lookup(ps, key) == None
  {
    if ps != [] {
      LookupAbsent(ps[1..], key);
    }
  }

  /** Dropping empty pairs does not change what a unique key reads as (absent reads as ""). */
  lemma {:induction false} LookupNonEmpty(ps: seq<Pair>, key: string)
    requires KeyUnique(ps, key)
    ensures Lookup(NonEmpty(ps), key).GetOr("") == Lookup(ps, key).GetOr("")
  {
    if ps != [] {
      assert KeyUnique(ps[1..], key) by {
        forall i, j | 0 <= i < j < |ps[1..]| && ps[1..][i].0 == key ensures ps[1..][j].0 != key {
          assert ps[i + 1].0 == key;
        }
      }
      LookupNonEmpty(ps[1..], key);
      if ps[0].0 == key {
        assert forall i :: 0 <= i < |ps[1..]| ==> ps[1..][i].0 != key by {
          forall i | 0 <= i < |ps[1..]| ensures ps[1..][i].0 != key {
            assert ps[i + 1] == ps[1..][i];
          }
        }
        LookupAbsent(ps[1..], key);
        NonEmptySubset(ps[1..]);
        if ps[0].1 == "" {
          var r := NonEmpty(ps[1..]);
          forall i | 0 <= i < |r| ensures r[i].0 != key {
            assert r[i] in r;
            var j :| 0 <= j < |ps[1..]| && ps[1..][j] == r[i];
          }
          LookupAbsent(r, key);
        }
      }
    }
  }

  /**
   * The query loses nothing: reading it back (an omitted key as the empty
   * input) gives the filter it was built from.
   */
  lemma QueryRoundTrip(f: Filter)
    ensures ParseQuery(QueryOf(f)) == f
  {
    var e := Entries(f);
    assert KeyUnique(e, "date_from") && KeyUnique(e, "date_to");
    assert KeyUnique(e, "user_id") && KeyUnique(e, "location_id");
    LookupNonEmpty(e, "date_from");
    LookupNonEmpty(e, "date_to");
    LookupNonEmpty(e, "user_id");
    LookupNonEmpty(e, "location_id");
    assert e[1..][1..][1..][1..] == [];
    assert Lookup(e, "date_from") == Some(f.date_from);
    assert Lookup(e, "date_to") == Some(f.date_to);
    assert Lookup(e, "user_id") == Lookup(e[1..], "user_id") == Lookup(e[1..][1..], "user_id") == Some(f.user_id);
    assert Lookup(e, "location_id") == Lookup(e[1..][1..], "location_id")
        == Lookup(e[1..][1..][1..], "location_id") == Some(f.location_id);
  }

  /** An empty user is omitted while location "5" stays, and the order is kept. */
  lemma QueryExample()
    ensures QueryOf(Filter("2024-01-01", "2024-01-01", "", "5"))
         == [("date_from", "2024-01-01"), ("date_to", "2024-01-01"), ("location_id", "5")]
  {
  }

  // ---------------------------------------------------------------------------
  // Totals

  /** `parseFloat(ticket.total_amount || 0)`, in cents: a missing or empty amount counts as 0. */
  function AmountOf(t: Ticket): (cents: nat)
    ensures t.total_amount.Some? ==> cents == t.total_amount.value
    ensures t.total_amount.None? ==> cents == 0
  {
    t.total_amount.GetOr(0)
  }

  /** The sum of every ticket's amount, as the page's `reduce` adds them left to right. */
  function SumAmounts(ts: seq<Ticket>): nat
    decreases |ts|
  {
    if ts == [] then 0 else SumAmounts(ts[..|ts| - 1]) + AmountOf(ts[|ts| - 1])
  }

  datatype Totals = Totals(totalAmount: nat, ticketCount: nat, averageTicket: real)

  /** The page's totals: amount, count, and an average that is 0 for an empty list. */
  function TotalsOf(ts: seq<Ticket>): (t: Totals)
    ensures t.ticketCount == |ts|
    ensures t.totalAmount == SumAmounts(ts)
    ensures |ts| > 0 ==> t.averageTicket * |ts| as real == t.totalAmount as real
    ensures |ts| == 0 ==> t == Totals(0, 0, 0.0)
  {
    var amount := SumAmounts(ts);
    var count := |ts|;
    Totals(amount, count, if count > 0 then amount as real / count as real else 0.0)
  }

  lemma {:induction false} SumAmountsAppend(a: seq<Ticket>, b: seq<Ticket>)
    ensures SumAmounts(a + b) == SumAmounts(a) + SumAmounts(b)
    decreases |b|
  {
    if b != [] {
      assert (a + b)[..|a + b| - 1] == a + b[..|b| - 1];
      SumAmountsAppend(a, b[..|b| - 1]);
    } else {
      assert a + b == a;
    }
  }

  /** The total is the sum over the tickets, whichever way the list is split. */
  lemma {:induction false} SumAmountsCons(t: Ticket, ts: seq<Ticket>)
    ensures SumAmounts([t] + ts) == AmountOf(t) + SumAmounts(ts)
  {
    SumAmountsAppend([t], ts);
    assert [t][..0] == [];
  }

  /** A ticket with no amount changes neither the sum nor anything but the count. */
  lemma MissingAmountAddsNothing(ts: seq<Ticket>, t: Ticket)
    requires t.total_amount.None?
    ensures TotalsOf(ts + [t]).totalAmount == TotalsOf(ts).totalAmount
    ensures TotalsOf(ts + [t]).ticketCount == TotalsOf(ts).ticketCount + 1
  {
    assert (ts + [t])[..|ts + [t]| - 1] == ts;
  }

  lemma {:induction false} SumAmountsBounded(ts: seq<Ticket>, bound: nat)
    requires forall i :: 0 <= i < |ts| ==> AmountOf(ts[i]) <= bound
    ensures SumAmounts(ts) <= |ts| * bound
    decreases |ts|
  {
    if ts != [] {
      SumAmountsBounded(ts[..|ts| - 1], bound);
    }
  }

  /** The average never exceeds the largest ticket amount and is never negative. */
  lemma AverageWithinBounds(ts: seq<Ticket>, bound: nat)
    requires forall i :: 0 <= i < |ts| ==> AmountOf(ts[i]) <= bound
    ensures 0.0 <= TotalsOf(ts).averageTicket <= bound as real
  {
    SumAmountsBounded(ts, bound);
    var t := TotalsOf(ts);
    if |ts| > 0 {
      var n := |ts| as real;
      assert t.averageTicket * n <= bound as real * n;
    }
  }

  // ---------------------------------------------------------------------------
  // The page

  const TicketsPath := "/tickets"
  const TicketsAlert := "Error al cargar historial."

  class HistoryPage {
    /** The filter of the first render, which the mount effect's `fetchTickets` closure keeps. */
    const mountFilters: Filter
    var tickets: seq<Ticket>
    var users: seq<User>
    var locations: seq<Location>
    var filters: Filter
    var loading: bool
    var selectedTicket: Option<Ticket>

    /** The page as it mounts; `today` is the browser's current date as `YYYY-MM-DD`. */
    constructor(today: string)
      ensures filters == mountFilters == DefaultFilter(today)
      ensures tickets == [] && users == [] && locations == []
      ensures !loading && selectedTicket == None
    {
      tickets, users, locations := [], [], [];
      mountFilters := DefaultFilter(today);
      filters := DefaultFilter(today);
      loading := false;
      selectedTicket := None;
    }

    /** The totals cards: recomputed from the ticket list alone. */
    function Totals(): (t: Totals)
      reads this
      ensures t == TotalsOf(tickets)
      ensures t.ticketCount == |tickets| && t.totalAmount == SumAmounts(tickets)
    {
      TotalsOf(tickets)
    }

    /** `handleFilterChange`: only the named field takes the new value. */
    method HandleFilterChange(field: FilterField, value: string)
      modifies this
      ensures filters == WithField(old(filters), field, value)
      ensures tickets == old(tickets) && users == old(users) && locations == old(locations)
      ensures loading == old(loading) && selectedTicket == old(selectedTicket)
    {
      filters := WithField(filters, field, value);
    }

    /**
     * The first half of `fetchTickets` as a render's closure runs it: raise
     * `loading` and issue the request for the filter that render saw.
     */
    method FetchTicketsWith(f: Filter) returns (req: ApiRequest)
      modifies this`loading
      ensures req == ApiRequest(Get, TicketsPath, QueryOf(f))
      ensures loading
    {
      loading := true;
      var params := BuildQuery(f);
      req := ApiRequest(Get, TicketsPath, params);
    }

    /** The search button: `fetchTickets` of the current render, with the current filter. */
    method BeginFetchTickets() returns (req: ApiRequest)
      modifies this
      ensures req == ApiRequest(Get, TicketsPath, QueryOf(filters))
      ensures loading
      ensures filters == old(filters) && tickets == old(tickets)
      ensures users == old(users) && locations == old(locations) && selectedTicket == old(selectedTicket)
    {
      req := FetchTicketsWith(filters);
    }

    /** The second half: a response replaces the list wholesale; a failure keeps it and alerts. */
    method CompleteFetchTickets(res: Result<seq<Ticket>, ApiError>) returns (alert: Option<string>)
      modifies this
      ensures res.Success? ==> tickets == res.value && alert == None
      ensures res.Failure? ==> tickets == old(tickets) && alert == Some(TicketsAlert)
      ensures !loading
      ensures filters == old(filters) && users == old(users) && locations == old(locations)
      ensures selectedTicket == old(selectedTicket)
    {
      if res.Success? {
        tickets := res.value;
        alert := None;
      } else {
        alert := Some(TicketsAlert);
      }
      loading := false;
    }

    /**
     * `loadMetadata`'s continuation: when both the user and the location lists
     * arrived, store them and start the first ticket fetch; otherwise change
     * nothing. The effect runs once, so its `fetchTickets` is the first render's
     * and queries with the mount-time filter, whatever the inputs show by now.
     */
    method CompleteLoadMetadata(res: Result<(seq<User>, seq<Location>), ApiError>) returns (fetch: Option<ApiRequest>)
      modifies this
      ensures res.Success? ==> users == res.value.0 && locations == res.value.1 && loading
      ensures res.Success? ==> fetch == Some(ApiRequest(Get, TicketsPath, QueryOf(mountFilters)))
      ensures res.Failure? ==> fetch == None && users == old(users) && locations == old(locations)
      ensures res.Failure? ==> loading == old(loading)
      ensures filters == old(filters) && tickets == old(tickets) && selectedTicket == old(selectedTicket)
    {
      if res.Success? {
        users := res.value.0;
        locations := res.value.1;
        var req := FetchTicketsWith(mountFilters);
        fetch := Some(req);
      } else {
        fetch := None;
      }
    }

    /** The eye button opens a ticket's detail; closing the modal clears the selection. */
    method SelectTicket(t: Option<Ticket>)
      modifies this
      ensures selectedTicket == t
      ensures tickets == old(tickets) && filters == old(filters) && loading == old(loading)
      ensures users == old(users) && locations == old(locations)
    {
      selectedTicket := t;
    }
  }

  /** The two requests `loadMetadata` sends before any ticket is fetched. */
  function MetadataRequests(): (reqs: seq<ApiRequest>)
    ensures reqs == [ApiRequest(Get, "/users", []), ApiRequest(Get, "/locations", [])]
  {
    [ApiRequest(Get, "/users", []), ApiRequest(Get, "/locations", [])]
  }

  /**
   * A user filter chosen while the metadata is still loading does not reach
   * the first ticket list: that fetch carries the mount-time filter, and its
   * query differs from the one the inputs now describe.
   */
  method EarlyEditMissesBootstrap(today: string, userId: string, lists: (seq<User>, seq<Location>))
    returns (first: Option<ApiRequest>, shown: Filter)
    ensures first == Some(ApiRequest(Get, TicketsPath, QueryOf(DefaultFilter(today))))
    ensures shown == WithField(DefaultFilter(today), UserId, userId)
    ensures userId != "" ==> first.value.query != QueryOf(shown)
  {
    var page := new HistoryPage(today);
    page.HandleFilterChange(UserId, userId);
    first := page.CompleteLoadMetadata(Success(lists));
    shown := page.filters;
    if userId != "" {
      QueryRoundTrip(DefaultFilter(today));
      QueryRoundTrip(shown);
    }
  }
}
