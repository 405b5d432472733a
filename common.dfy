// Shared vocabulary of the admin front end: optional values, network outcomes,
// the records the REST API returns, decimal rendering of numbers and money, and
// the browser state (localStorage and the current location) that handlers touch.

module Common {

  datatype Option<+T> = None | Some(value: T) {
    function GetOr(default: T): T {
      match this
      case Some(v) => v
      case None => default
    }
  }

  /** The outcome of a network call: the response data, or the error it rejected with. */
  datatype Result<+T, +E> = Success(value: T) | Failure(error: E)

  // ---------------------------------------------------------------------------
  // Network errors, as axios reports them

  /** The part of an axios error that describes the server's answer. */
  datatype ErrorResponse = ErrorResponse(status: nat, dataError: Option<string>, statusText: string)

  /**
   * An axios error: `response` is present when the server answered with a
   * non-2xx status, `requestSent` says whether a request went out at all
   * (`err.request`), and `message` is the error's own message.
   */
  datatype ApiError = ApiError(response: Option<ErrorResponse>, requestSent: bool, message: string)

  datatype Verb = Get | Post | Put | Delete

  /** A request to the REST API: verb, path below the base URL, and query pairs in order. */
  datatype ApiRequest = ApiRequest(verb: Verb, path: string, query: seq<(string, string)>)

  /** JavaScript's `a || b` on an optional string: `a` when it is present and non-empty. */
  function OrElse(a: Option<string>, b: string): (r: string)
    ensures a.Some? && a.value != "" ==> r == a.value
    ensures (a.None? || a.value == "") ==> r == b
  {
    if a.Some? && a.value != "" then a.value else b
  }

  // ---------------------------------------------------------------------------
  // Records the API returns. Money is held in integer cents.

  /** A ticket of the sales history; a missing or empty `total_amount` is `None`. */
  datatype Ticket = Ticket(
    id: nat,
    correlative_number: nat,
    username: string,
    location_name: string,
    payment_type: string,
    total_amount: Option<nat>,
    created_at_local: string)

  /** A line item of a ticket; `unit_price` in cents. */
  datatype LineItem = LineItem(item_name: string, quantity: nat, unit_price: nat)

  datatype User = User(id: nat, username: string, full_name: string, location_id: Option<nat>, is_active: bool)

  datatype Item = Item(
    id: nat,
    name: string,
    price: string,
    location_id: Option<nat>,
    icon_base64: Option<string>,
    is_active: bool)

  datatype Location = Location(id: nat, name: string, is_active: bool)

  // ---------------------------------------------------------------------------
  // Decimal rendering (`toString`) and its inverse

  predicate IsDigit(c: char) {
    '0' <= c <= '9'
  }

  predicate AllDigits(s: string) {
    forall i :: 0 <= i < |s| ==> IsDigit(s[i])
  }

  function DigitChar(d: nat): (c: char)
    requires d < 10
    ensures IsDigit(c)
  {
    (48 + d) as char
  }

  function DigitValue(c: char): (d: nat)
    requires IsDigit(c)
    ensures d < 10 && DigitChar(d) == c
  {
    c as int - 48
  }

  /** The decimal numeral of `n`, as `Number.prototype.toString` writes it. */
  function NatToString(n: nat): (s: string)
    ensures |s| >= 1 && AllDigits(s)
    ensures s[0] == '0' ==> n == 0
    decreases n
  {
    if n < 10 then [DigitChar(n)] else NatToString(n / 10) + [DigitChar(n % 10)]
  }

  /** Reads a string of decimal digits back as a number. */
  function ParseNat(s: string): nat
    requires AllDigits(s)
    decreases |s|
  {
    if |s| == 0 then 0 else ParseNat(s[..|s| - 1]) * 10 + DigitValue(s[|s| - 1])
  }

  lemma {:induction false} ParseNatToString(n: nat)
    ensures ParseNat(NatToString(n)) == n
    decreases n
  {
    var s := NatToString(n);
    if n >= 10 {
      ParseNatToString(n / 10);
      assert s[..|s| - 1] == NatToString(n / 10);
    }
  }

  /** Different numbers are written differently. */
  lemma NatToStringInjective(m: nat, n: nat)
    requires NatToString(m) == NatToString(n)
    ensures m == n
  {
    ParseNatToString(m);
    ParseNatToString(n);
  }

  // ---------------------------------------------------------------------------
  // Money: `toFixed(2)` on a whole number of cents

  /** `cents / 100` written with exactly two decimals, as `toFixed(2)` does. */
  function FormatCents(cents: nat): (s: string)
    ensures |s| >= 4 && s[|s| - 3] == '.'
    ensures AllDigits(s[..|s| - 3]) && IsDigit(s[|s| - 2]) && IsDigit(s[|s| - 1])
  {
    NatToString(cents / 100) + "." + [DigitChar(cents / 10 % 10), DigitChar(cents % 10)]
  }

  /** Reads a two-decimal amount back as cents. */
  function ParseCents(s: string): nat
    requires |s| >= 4 && s[|s| - 3] == '.'
    requires AllDigits(s[..|s| - 3]) && IsDigit(s[|s| - 2]) && IsDigit(s[|s| - 1])
  {
    ParseNat(s[..|s| - 3]) * 100 + DigitValue(s[|s| - 2]) * 10 + DigitValue(s[|s| - 1])
  }

  lemma {:induction false} ParseFormatCents(cents: nat)
    ensures ParseCents(FormatCents(cents)) == cents
  {
    var s := FormatCents(cents);
    assert s[..|s| - 3] == NatToString(cents / 100);
    ParseNatToString(cents / 100);
  }

  /** A currency amount as the screens and the receipt show it: `"$" + toFixed(2)`. */
  function Money(cents: nat): (s: string)
    ensures |s| >= 5 && s[0] == '$' && s[1..] == FormatCents(cents)
  {
    "$" + FormatCents(cents)
  }

  /** A shown amount reads back as the cents it was made from. */
  lemma MoneyReadsBack(cents: nat)
    ensures ParseCents(Money(cents)[1..]) == cents
  {
    ParseFormatCents(cents);
  }

  // ---------------------------------------------------------------------------
  // Browser state

  const AuthTokenKey := "authToken"
  const UserKey := "user"

  /** `!!localStorage.getItem('authToken')`: a token is stored and it is not the empty string. */
  predicate HasToken(storage: map<string, string>) {
    AuthTokenKey in storage && storage[AuthTokenKey] != ""
  }

  /** The browser: `localStorage` as a map and `window.location.href`. */
  class Env {
    var storage: map<string, string>
    var href: string

    constructor(storage: map<string, string>, href: string)
      ensures this.storage == storage && this.href == href
    {
      this.storage := storage;
      this.href := href;
    }
  }
}
