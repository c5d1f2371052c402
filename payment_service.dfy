/** The simulated payment gateway: a random gate in front of a redirect-URL builder. */
module Payment {
  import opened Basics
  import opened Transactions

  /** Address of the simulated gateway page. */
  const GatewayUrl: string := "http://localhost:8080/simulated-payment.html"

  /** Everything a successful initiation's URL starts with. */
  const TxnIdPrefix: string := GatewayUrl + "?txnId="

  /** Initiation succeeds when the uniform draw in [0, 1) falls below this. */
  const SuccessThreshold: real := 0.99

  /** Java string concatenation of a possibly-null String: null reads "null". */
  function Text(s: Option<string>): string
  {
    match s
    case None => "null"
    case Some(v) => v
  }

  /** Initiates payment for `t`. `draw` is the value of `Math.random()` and `formatAmount`
      the decimal rendering of a double; the transaction itself is only read. */
  function InitiatePayment(t: TxnRecord, draw: real, formatAmount: real -> string): (url: Option<string>)
    requires 0.0 <= draw < 1.0
    ensures url.Some? <==> draw < SuccessThreshold
    ensures url.Some? ==> TxnIdPrefix <= url.value
    ensures url.Some? ==>
      var tail := "&amount=" + formatAmount(t.amountPaid) + "&slot=" + Text(t.slotId);
      |tail| <= |url.value| && url.value[|url.value| - |tail|..] == tail
  {
    if draw < SuccessThreshold then
      Some(GatewayUrl + "?txnId=" + Text(t.transactionId) + "&amount=" + formatAmount(t.amountPaid)
           + "&slot=" + Text(t.slotId))
    else
      None
  }

  /** The final confirmation step of the simulated gateway: it always reports success. */
  function ConfirmPayment(t: TxnRecord): (ok: bool)
    ensures ok
  {
    true
  }

  // ---------------------------------------------------------------------------
  // Reading query parameters back out of a gateway URL.

  /** The longest prefix of `s` that does not contain `c`. */
  function TakeUntil(s: string, c: char): (r: string)
    ensures r <= s && c !in r
    ensures |r| < |s| ==> s[|r|] == c
  {
    if s == [] || s[0] == c then [] else [s[0]] + TakeUntil(s[1..], c)
  }

  /** The part of `s` after the last occurrence of `c` (all of `s` when there is none). */
  function AfterLast(s: string, c: char): (r: string)
    ensures |r| <= |s| && r == s[|s| - |r|..] && c !in r
  {
    if s == [] then []
    else if s[|s| - 1] == c then []
    else AfterLast(s[..|s| - 1], c) + [s[|s| - 1]]
  }

  /** The value of the `txnId` query parameter of a gateway URL. */
  function TxnIdParam(url: string): Option<string>
  {
    if TxnIdPrefix <= url then Some(TakeUntil(url[|TxnIdPrefix|..], '&')) else None
  }

  /** The last query parameter of a URL, as `name=value`. */
  function LastParam(url: string): string
  {
    AfterLast(url, '&')
  }

  lemma {:induction false} TakeUntilStopsAt(a: string, c: char, b: string)
    requires c !in a
    ensures TakeUntil(a + [c] + b, c) == a
  {
    if a != [] {
      assert (a + [c] + b)[1..] == a[1..] + [c] + b;
      TakeUntilStopsAt(a[1..], c, b);
    }
  }

  lemma {:induction false} AfterLastStopsAt(a: string, c: char, b: string)
    requires c !in b
    ensures AfterLast(a + [c] + b, c) == b
  {
    var s := a + [c] + b;
    if b != [] {
      assert s[..|s| - 1] == a + [c] + b[..|b| - 1];
      AfterLastStopsAt(a, c, b[..|b| - 1]);
      assert b == b[..|b| - 1] + [b[|b| - 1]];
    }
  }

  /** The payment page recovers exactly the transaction's identifier from the URL,
      provided the identifier contains no '&' (a UUID never does). */
  lemma UrlCarriesTransactionId(t: TxnRecord, draw: real, formatAmount: real -> string)
    requires 0.0 <= draw < SuccessThreshold
    requires t.transactionId.Some? && '&' !in t.transactionId.value
    ensures InitiatePayment(t, draw, formatAmount).Some?
    ensures TxnIdParam(InitiatePayment(t, draw, formatAmount).value) == t.transactionId
  {
    var id := t.transactionId.value;
    var rest := "amount=" + formatAmount(t.amountPaid) + "&slot=" + Text(t.slotId);
    var url := InitiatePayment(t, draw, formatAmount).value;
    assert url == TxnIdPrefix + (id + ['&'] + rest);
    assert url[|TxnIdPrefix|..] == id + ['&'] + rest;
    TakeUntilStopsAt(id, '&', rest);
  }

  /** The URL ends with the slot parameter, which carries the transaction's slot id
      (when that id contains no '&'). */
  lemma UrlEndsWithSlot(t: TxnRecord, draw: real, formatAmount: real -> string)
    requires 0.0 <= draw < SuccessThreshold
    requires '&' !in Text(t.slotId)
    ensures InitiatePayment(t, draw, formatAmount).Some?
    ensures LastParam(InitiatePayment(t, draw, formatAmount).value) == "slot=" + Text(t.slotId)
  {
    var head := TxnIdPrefix + Text(t.transactionId) + "&amount=" + formatAmount(t.amountPaid);
    var url := InitiatePayment(t, draw, formatAmount).value;
    assert url == head + ['&'] + ("slot=" + Text(t.slotId));
    AfterLastStopsAt(head, '&', "slot=" + Text(t.slotId));
  }
}
