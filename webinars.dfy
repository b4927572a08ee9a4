/** The webinar page: the catalog it shows, the enroll decision, the payment
    it starts with the gateway and the verification of the gateway's reply.
    Every call to the backend, the gateway, the router and `alert` is
    recorded in an effect log together with how it settled; the outcomes
    themselves are inputs. */
module Webinars {
  import opened Js
  import opened Decimal

  /** A catalog entry as the backend sends it; `price` is a string in rupees. */
  datatype Webinar = Webinar(id: string, title: string, presenter: string, date: string, price: string)

  /** What the checkout is opened with (the `handler` is the `Session`). */
  datatype GatewayOptions = GatewayOptions(
    key: string, amount: nat, currency: string, name: string, description: string, orderId: string)

  /** What the gateway hands to the handler after a payment. */
  datatype GatewayResponse = GatewayResponse(paymentId: string, orderId: string, signature: string)

  /** The body of the payment confirmation request. */
  datatype Verification = Verification(webinarId: string, paymentId: string, orderId: string, signature: string)

  /** An opened checkout together with what its handler closure captured. */
  datatype Session = Session(webinar: Webinar, options: GatewayOptions)

  /** One interaction with the outside world and, for a call, how it settled. */
  datatype Effect =
    | GetWebinars(catalog: Reply<seq<Webinar>>)
    | CheckStatus(webinar: Webinar, alreadyPaid: Reply<bool>)
    | CreateOrder(amount: string, receiptId: string, order: Reply<string>)
    | GetKey(key: Reply<string>)
    | OpenGateway(options: GatewayOptions)
    | ConfirmPayment(request: Verification, success: Reply<bool>)
    | Navigate(path: string)
    | Alert(message: string)

  datatype Kind = Catalog | Status | Order | Key | Gateway | Confirmation | Navigation | Message

  function KindOf(e: Effect): Kind {
    match e
    case GetWebinars(_) => Catalog
    case CheckStatus(_, _) => Status
    case CreateOrder(_, _, _) => Order
    case GetKey(_) => Key
    case OpenGateway(_) => Gateway
    case ConfirmPayment(_, _) => Confirmation
    case Navigate(_) => Navigation
    case Alert(_) => Message
  }

  /** How many effects of kind `k` the log holds. */
  function Count(log: seq<Effect>, k: Kind): nat {
    if log == [] then 0 else (if KindOf(log[0]) == k then 1 else 0) + Count(log[1..], k)
  }

  lemma {:induction false} CountConcat(a: seq<Effect>, b: seq<Effect>, k: Kind)
    ensures Count(a + b, k) == Count(a, k) + Count(b, k)
    decreases |a|
  {
    if a == [] {
      assert a + b == b;
    } else {
      assert (a + b)[1..] == a[1..] + b;
      CountConcat(a[1..], b, k);
    }
  }

  function Tally(e: Effect, k: Kind): nat { if KindOf(e) == k then 1 else 0 }

  lemma CountOfTwo(a: Effect, b: Effect)
    ensures forall k :: Count([a, b], k) == Tally(a, k) + Tally(b, k)
  {
    forall k ensures Count([a, b], k) == Tally(a, k) + Tally(b, k) {
      assert [a, b][1..] == [b] && [b][1..] == [];
      assert Count([b], k) == Tally(b, k) + Count([], k);
    }
  }

  lemma CountOfThree(a: Effect, b: Effect, c: Effect)
    ensures forall k :: Count([a, b, c], k) == Tally(a, k) + Tally(b, k) + Tally(c, k)
  {
    assert [a, b, c][1..] == [b, c];
    CountOfTwo(b, c);
  }

  const LoginPath := "/login"
  const CatalogError := "Error fetching webinars."
  const StatusCheckError := "Error checking payment status. Please try again."
  const PaymentInitError := "Error initiating payment."
  const PaymentSuccessful := "Payment successful!"
  const VerificationFailed := "Payment verification failed. Please try again."
  const Currency := "INR"
  const OrderDescription := "Enrollment for Webinar"
  /** How many of the fetched webinars the page keeps. */
  const CatalogSize := 5

  function InfoPath(id: string): string { "/webinarinfo/" + id }

  /** Webinar pages of different webinars are different paths, and none of
      them is the login page. */
  lemma InfoPathInjective(a: string, b: string)
    ensures InfoPath(a) == InfoPath(b) <==> a == b
    ensures InfoPath(a) != LoginPath
  {
    if InfoPath(a) == InfoPath(b) {
      assert a == InfoPath(a)[13..] && b == InfoPath(b)[13..];
    }
    assert InfoPath(a)[1] != LoginPath[1];
  }

  /** The catalog keeps the last five webinars of the response, in order. */
  function LastFive(response: seq<Webinar>): (r: seq<Webinar>)
    ensures |r| == Min(CatalogSize, |response|)
    ensures response == response[..|response| - |r|] + r
  {
    var r := SliceFrom(response, -CatalogSize);
    assert response == response[..|response| - |r|] + r;
    r
  }

  /** `webinar.price === "0"`: string equality, so "00" is not free. */
  predicate IsFree(price: string) { price == "0" }

  /** The price shown on a card. */
  function PriceLabel(price: string): (caption: string)
    ensures caption == "Free" <==> IsFree(price)
    ensures !IsFree(price) ==> caption == "\U{20B9}" + price
  {
    if IsFree(price) then "Free"
    else
      var shown := "\U{20B9}" + price;
      assert shown[0] != "Free"[0];
      shown
  }

  /** The caption of a card's enroll button. */
  function EnrollButtonLabel(price: string): (caption: string)
    ensures caption == "Enroll Now" <==> IsFree(price)
    ensures !IsFree(price) ==> caption == "Pay & Enroll"
  {
    if IsFree(price) then "Enroll Now" else "Pay & Enroll"
  }

  /** What `handleEnroll` does once the status check has settled. */
  datatype Decision = OpenWebinarPage | StartPayment | RedirectToLogin | AlertStatusError

  /** The enroll decision from the status check's outcome, whether a token
      is stored and the price string. */
  function Enroll(status: Reply<bool>, hasToken: bool, price: string): (d: Decision)
    ensures status == Ok(true) ==> d == OpenWebinarPage
    ensures status == Ok(false) ==> (d == OpenWebinarPage <==> IsFree(price))
    ensures d == StartPayment <==> status == Ok(false) && !IsFree(price)
    ensures d == RedirectToLogin <==> status.Threw? && !hasToken
    ensures d == AlertStatusError <==> status.Threw? && hasToken
  {
    match status
    case Ok(alreadyPaid) =>
      if alreadyPaid then OpenWebinarPage
      else if IsFree(price) then OpenWebinarPage
      else StartPayment
    case Threw =>
      if !hasToken then RedirectToLogin else AlertStatusError
  }

  /** `parseInt(price, 10) * 100`: rupees to paise. The result is a whole
      number of rupees, below 100 * 10^k for a price of k digits. */
  function ToPaise(price: string): (paise: nat)
    requires IsDigits(price)
    ensures paise % 100 == 0
    ensures paise < 100 * Pow10(|price|)
  {
    ParseInt(price) * 100
  }

  /** The conversion is applied once: a price written as `n` rupees is
      `100 * n` paise (so "499" is 49900). */
  lemma PaiseOfRupees(n: nat)
    ensures ToPaise(FormatDecimal(n)) == 100 * n
  {
    ParseFormat(n);
  }

  /** A zero price spelled with two digits is not free: it takes the paid
      path and the checkout is opened for 0 paise. */
  lemma ZeroWithTwoDigitsIsPaid(hasToken: bool)
    ensures Enroll(Ok(false), hasToken, "00") == StartPayment
    ensures ToPaise("00") == 0
  {
    LeadingZero("0");
  }

  /** The options the checkout is opened with: the fetched key, the price
      in paise, rupees as currency, the webinar's title, the fixed
      description and the created order's id. */
  function CheckoutOptions(w: Webinar, key: string, orderId: string): (o: GatewayOptions)
    requires IsDigits(w.price)
    ensures o.key == key && o.orderId == orderId
    ensures o.amount == ToPaise(w.price) && o.amount % 100 == 0
    ensures o.currency == "INR" && o.name == w.title && o.description == "Enrollment for Webinar"
  {
    GatewayOptions(key, ToPaise(w.price), Currency, w.title, OrderDescription, orderId)
  }

  /** Where a navigation is allowed to go right after `prev`: the webinar
      page after a status check that found it paid or free, or after a
      confirmed payment for it; the login page after a failed check. */
  predicate NavigationAllowed(prev: Effect, path: string) {
    match prev
    case CheckStatus(w, Ok(paid)) => path == InfoPath(w.id) && (paid || IsFree(w.price))
    case CheckStatus(_, Threw) => path == LoginPath
    case ConfirmPayment(req, Ok(true)) => path == InfoPath(req.webinarId)
    case _ => false
  }

  /** The entry at `i` respects the flow's ordering: a checkout opens right
      after a successful order creation and key fetch, with that order id,
      that key and the order's rupee amount in paise; a navigation follows
      what allows it. */
  predicate WellFormedAt(log: seq<Effect>, i: nat)
    requires i < |log|
  {
    match log[i]
    case OpenGateway(o) =>
      2 <= i && log[i - 2].CreateOrder? && log[i - 2].order.Ok? &&
      log[i - 1].GetKey? && log[i - 1].key.Ok? &&
      IsDigits(log[i - 2].amount) &&
      o.orderId == log[i - 2].order.value && o.key == log[i - 1].key.value &&
      o.amount == ToPaise(log[i - 2].amount)
    case Navigate(path) => 1 <= i && NavigationAllowed(log[i - 1], path)
    case _ => true
  }

  predicate WellFormed(log: seq<Effect>) {
    forall i :: 0 <= i < |log| ==> WellFormedAt(log, i)
  }

  /** Well-formed logs compose: each entry only looks back into its own part. */
  lemma WellFormedConcat(a: seq<Effect>, b: seq<Effect>)
    requires WellFormed(a) && WellFormed(b)
    ensures WellFormed(a + b)
  {
    var ab := a + b;
    forall i | 0 <= i < |ab| ensures WellFormedAt(ab, i) {
      if i < |a| {
        assert WellFormedAt(a, i);
        assert ab[i] == a[i];
        if i >= 1 { assert ab[i - 1] == a[i - 1]; }
        if i >= 2 { assert ab[i - 2] == a[i - 2]; }
      } else {
        var j := i - |a|;
        assert WellFormedAt(b, j);
        assert ab[i] == b[j];
        if j >= 1 { assert ab[i - 1] == b[j - 1]; }
        if j >= 2 { assert ab[i - 2] == b[j - 2]; }
      }
    }
  }

  /** In a well-formed log, every visit to a webinar's page comes right
      after a status check of that webinar that found it paid or free, or
      right after the backend confirmed a payment for that webinar. */
  lemma WebinarPageReached(log: seq<Effect>, i: nat, id: string)
    requires WellFormed(log) && i < |log| && log[i] == Navigate(InfoPath(id))
    ensures 1 <= i && (log[i - 1].CheckStatus? || log[i - 1].ConfirmPayment?)
    ensures log[i - 1].CheckStatus? ==>
      log[i - 1].webinar.id == id && log[i - 1].alreadyPaid.Ok? &&
      (log[i - 1].alreadyPaid.value || IsFree(log[i - 1].webinar.price))
    ensures log[i - 1].ConfirmPayment? ==>
      log[i - 1].request.webinarId == id && log[i - 1].success == Ok(true)
  {
    assert WellFormedAt(log, i);
    InfoPathInjective(id, id);
    var prev := log[i - 1];
    if prev.CheckStatus? {
      InfoPathInjective(prev.webinar.id, id);
    } else if prev.ConfirmPayment? {
      InfoPathInjective(prev.request.webinarId, id);
    }
  }

  /** The calls `initiatePayment` makes for a webinar: one order creation;
      the key fetch only if it succeeded; the checkout only if both did. */
  function PaymentCalls(w: Webinar, order: Reply<string>, key: Reply<string>): (r: seq<Effect>)
    requires IsDigits(w.price)
    ensures 1 <= |r| && r[0] == CreateOrder(w.price, w.id, order)
    ensures Count(r, Order) == 1
    ensures Count(r, Key) == (if order.Ok? then 1 else 0)
    ensures |r| == 1 + Count(r, Key) + Count(r, Gateway)
    ensures Count(r, Gateway) == (if order.Ok? && key.Ok? then 1 else 0)
    ensures order.Ok? ==> r[1] == GetKey(key)
    ensures forall i :: 0 <= i < |r| && r[i].OpenGateway? ==>
      order.Ok? && key.Ok? && r[i].options == CheckoutOptions(w, key.value, order.value)
    ensures Count(r, Navigation) == 0 && Count(r, Confirmation) == 0
    ensures WellFormed(r)
  {
    var create := CreateOrder(w.price, w.id, order);
    if order.Threw? then
      assert [create][1..] == [];
      [create]
    else if key.Threw? then
      CountOfTwo(create, GetKey(key));
      [create, GetKey(key)]
    else
      var r := [create, GetKey(key), OpenGateway(CheckoutOptions(w, key.value, order.value))];
      CountOfThree(r[0], r[1], r[2]);
      assert WellFormedAt(r, 2);
      r
  }

  /** What the page does for a decision other than starting a payment:
      open the webinar page, go to login, or alert. */
  function Reaction(d: Decision, w: Webinar): (e: Effect)
    requires d != StartPayment
    ensures e.Navigate? <==> d != AlertStatusError
    ensures d == OpenWebinarPage ==> e == Navigate(InfoPath(w.id))
    ensures e == Navigate(LoginPath) <==> d == RedirectToLogin
    ensures d == AlertStatusError ==> e == Alert(StatusCheckError)
  {
    match d
    case OpenWebinarPage => InfoPathInjective(w.id, w.id); Navigate(InfoPath(w.id))
    case RedirectToLogin => Navigate(LoginPath)
    case AlertStatusError => Alert(StatusCheckError)
  }

  /** A status check followed by a well-formed log, or by a single
      navigation or alert it allows, is well formed. */
  lemma StatusCheckThen(w: Webinar, status: Reply<bool>, rest: seq<Effect>)
    requires WellFormed(rest) || (|rest| == 1 && WellFormedAt([CheckStatus(w, status)] + rest, 1))
    ensures WellFormed([CheckStatus(w, status)] + rest)
  {
    var check := [CheckStatus(w, status)];
    assert WellFormedAt(check, 0);
    if WellFormed(rest) {
      WellFormedConcat(check, rest);
    } else {
      assert WellFormedAt(check + rest, 0);
    }
  }

  /** The calls one click on "Enroll" makes: the status check, then what
      `Enroll` decides. The price needs to parse only on the paid path. */
  function EnrollCalls(w: Webinar, status: Reply<bool>, hasToken: bool,
                       order: Reply<string>, key: Reply<string>): (r: seq<Effect>)
    requires Enroll(status, hasToken, w.price) == StartPayment ==> IsDigits(w.price)
    ensures |r| >= 2 && r[0] == CheckStatus(w, status)
    ensures status == Ok(true) ==> r == [CheckStatus(w, status), Navigate(InfoPath(w.id))]
    ensures status == Ok(false) && IsFree(w.price) ==> r == [CheckStatus(w, status), Navigate(InfoPath(w.id))]
    ensures Enroll(status, hasToken, w.price) == StartPayment ==> r == [CheckStatus(w, status)] + PaymentCalls(w, order, key)
    ensures status.Threw? ==> |r| == 2
    ensures Count(r, Order) == (if Enroll(status, hasToken, w.price) == StartPayment then 1 else 0)
    ensures Count(r, Gateway) <= Count(r, Order)
    ensures status.Threw? ==> r[1] == (if hasToken then Alert(StatusCheckError) else Navigate(LoginPath))
    ensures WellFormed(r)
  {
    var check := [CheckStatus(w, status)];
    var decision := Enroll(status, hasToken, w.price);
    var rest := if decision == StartPayment then PaymentCalls(w, order, key) else [Reaction(decision, w)];
    CountConcat(check, rest, Order);
    CountConcat(check, rest, Gateway);
    assert |rest| == 1 ==> WellFormedAt(check + rest, 1);
    StatusCheckThen(w, status, rest);
    check + rest
  }

  /** The calls the gateway's `handler` makes for an opened checkout: the
      confirmation request, with the order id the checkout was opened with
      (the one in the gateway's reply is not looked at), then navigation to
      the webinar page exactly when the backend confirmed, an alert
      otherwise. */
  function VerificationCalls(s: Session, response: GatewayResponse, success: Reply<bool>): (r: seq<Effect>)
    ensures |r| == 2 && r[0].ConfirmPayment? && r[0].success == success
    ensures r[0].request == Verification(s.webinar.id, response.paymentId, s.options.orderId, response.signature)
    ensures r[1] == Navigate(InfoPath(s.webinar.id)) <==> success == Ok(true)
    ensures success != Ok(true) ==> r[1] == Alert(VerificationFailed)
    ensures WellFormed(r)
  {
    var request := Verification(s.webinar.id, response.paymentId, s.options.orderId, response.signature);
    var r := [ConfirmPayment(request, success)] +
      if success == Ok(true) then [Navigate(InfoPath(s.webinar.id))] else [Alert(VerificationFailed)];
    assert WellFormedAt(r, 1);
    r
  }

  /** The handler ignores the order id the gateway reports back: a reply
      naming another order produces the same calls. */
  lemma ReportedOrderIdIgnored(s: Session, response: GatewayResponse, other: string, success: Reply<bool>)
    ensures VerificationCalls(s, response, success) ==
            VerificationCalls(s, response.(orderId := other), success)
  {
  }

  /** Some confirmation request in the log was answered with success. */
  predicate Confirmed(log: seq<Effect>) {
    exists i :: 0 <= i < |log| && log[i].ConfirmPayment? && log[i].success == Ok(true)
  }

  /** Every opened checkout was opened for a parseable price, with the
      options built from its webinar, and is in the log. */
  predicate SessionsOpened(log: seq<Effect>, sessions: seq<Session>) {
    forall k :: 0 <= k < |sessions| ==>
      IsDigits(sessions[k].webinar.price) &&
      sessions[k].options == CheckoutOptions(sessions[k].webinar, sessions[k].options.key, sessions[k].options.orderId) &&
      OpenGateway(sessions[k].options) in log
  }

  /** The payment status is one the page sets, and success is shown only
      after a confirmation the backend accepted. */
  predicate StatusJustified(log: seq<Effect>, status: string) {
    (status == "" || status == PaymentInitError || status == PaymentSuccessful) &&
    (status == PaymentSuccessful ==> Confirmed(log))
  }

  /** Appending a well-formed log keeps every part of the invariant. */
  lemma ExtendLog(log: seq<Effect>, more: seq<Effect>, sessions: seq<Session>, status: string)
    requires WellFormed(log) && WellFormed(more)
    requires SessionsOpened(log, sessions) && StatusJustified(log, status)
    ensures WellFormed(log + more)
    ensures SessionsOpened(log + more, sessions) && StatusJustified(log + more, status)
  {
    WellFormedConcat(log, more);
    if Confirmed(log) {
      var i :| 0 <= i < |log| && log[i].ConfirmPayment? && log[i].success == Ok(true);
      assert (log + more)[i] == log[i];
    }
    forall k | 0 <= k < |sessions| ensures OpenGateway(sessions[k].options) in log + more {
      assert OpenGateway(sessions[k].options) in log;
    }
  }

  /** A status check answered by a navigation or an alert is exactly what
      `EnrollCalls` prescribes, and appending it keeps the invariant. */
  lemma ReactionKeepsInvariant(log: seq<Effect>, w: Webinar, status: Reply<bool>, hasToken: bool,
                               order: Reply<string>, key: Reply<string>, sessions: seq<Session>, st: string)
    requires Enroll(status, hasToken, w.price) != StartPayment
    requires WellFormed(log) && SessionsOpened(log, sessions) && StatusJustified(log, st)
    ensures var after := log + [CheckStatus(w, status)] + [Reaction(Enroll(status, hasToken, w.price), w)];
      after == log + EnrollCalls(w, status, hasToken, order, key) &&
      WellFormed(after) && SessionsOpened(after, sessions) && StatusJustified(after, st)
  {
    var calls := EnrollCalls(w, status, hasToken, order, key);
    assert log + [CheckStatus(w, status)] + [Reaction(Enroll(status, hasToken, w.price), w)] == log + calls;
    ExtendLog(log, calls, sessions, st);
  }

  /** Recording a newly opened checkout keeps the sessions consistent. */
  lemma OpenSession(log: seq<Effect>, sessions: seq<Session>, s: Session)
    requires SessionsOpened(log, sessions)
    requires IsDigits(s.webinar.price) && s.options == CheckoutOptions(s.webinar, s.options.key, s.options.orderId)
    requires OpenGateway(s.options) in log
    ensures SessionsOpened(log, sessions + [s])
  {
  }

  /** The state of the webinar page. `token` is what `localStorage` held
      when the page was rendered. */
  class WebinarsPage {
    var webinars: seq<Webinar>
    var loading: bool
    var error: string
    var selectedWebinar: Option<Webinar>
    var paymentStatus: string
    const token: Value
    /** Every external interaction so far, in order. */
    var effects: seq<Effect>
    /** Every checkout opened so far, with its handler's captured values. */
    var sessions: seq<Session>

    ghost predicate Valid()
      reads this
    {
      |webinars| <= CatalogSize &&
      WellFormed(effects) &&
      SessionsOpened(effects, sessions) &&
      StatusJustified(effects, paymentStatus)
    }

    constructor (token: Value)
      ensures Valid()
      ensures webinars == [] && loading && error == "" && selectedWebinar == None
      ensures paymentStatus == "" && this.token == token && effects == [] && sessions == []
    {
      webinars := [];
      loading := true;
      error := "";
      selectedWebinar := None;
      paymentStatus := "";
      this.token := token;
      effects := [];
      sessions := [];
    }

    /** `fetchWebinars`: keep the last five on success, set the error on
      failure, stop loading either way. */
    method FetchWebinars(response: Reply<seq<Webinar>>)
      requires Valid()
      modifies this
      ensures Valid()
      ensures effects == old(effects) + [GetWebinars(response)]
      ensures response.Ok? ==> webinars == LastFive(response.value) && error == old(error)
      ensures response.Threw? ==> webinars == old(webinars) && error == CatalogError
      ensures !loading
      ensures selectedWebinar == old(selectedWebinar) && paymentStatus == old(paymentStatus)
      ensures sessions == old(sessions)
    {
      assert WellFormedAt([GetWebinars(response)], 0);
      ExtendLog(effects, [GetWebinars(response)], sessions, paymentStatus);
      effects := effects + [GetWebinars(response)];
      match response {
        case Ok(data) =>
          webinars := LastFive(data);
        case Threw =>
          error := CatalogError;
      }
      loading := false;
    }

    /** `handleEnroll`: select the webinar, check its status, then open its
      page, start the payment, go to login or alert, as `Enroll` decides.
      The outcomes of the status check, the order creation and the key
      fetch are inputs. */
    method HandleEnroll(w: Webinar, status: Reply<bool>, order: Reply<string>, key: Reply<string>)
      requires Valid()
      requires Enroll(status, Truthy(token), w.price) == StartPayment ==> IsDigits(w.price)
      modifies this
      ensures Valid()
      ensures selectedWebinar == Some(w)
      ensures effects == old(effects) + EnrollCalls(w, status, Truthy(token), order, key)
      ensures (var paying := Enroll(status, Truthy(token), w.price) == StartPayment;
        var checkout := paying && order.Ok? && key.Ok?;
        paymentStatus == (if paying && !checkout then PaymentInitError else old(paymentStatus)) &&
        sessions == old(sessions) + (if checkout then [Session(w, CheckoutOptions(w, key.value, order.value))] else []))
      ensures webinars == old(webinars) && loading == old(loading) && error == old(error)
    {
      selectedWebinar := Some(w);
      ghost var log := effects;
      assert WellFormedAt([CheckStatus(w, status)], 0);
      ExtendLog(log, [CheckStatus(w, status)], sessions, paymentStatus);
      effects := effects + [CheckStatus(w, status)];
      var decision := Enroll(status, Truthy(token), w.price);
      if decision == StartPayment {
        InitiatePayment(Some(w), order, key);
        assert effects == log + EnrollCalls(w, status, Truthy(token), order, key);
      } else {
        effects := effects + [Reaction(decision, w)];
        ReactionKeepsInvariant(log, w, status, Truthy(token), order, key, sessions, paymentStatus);
      }
    }

    /** `initiatePayment`: nothing without a webinar; otherwise create the
      order and fetch the key, and open the checkout for the price in paise
      with the order id just created. A failure of either call sets the
      payment status to the error message and opens nothing. */
    method InitiatePayment(w: Option<Webinar>, order: Reply<string>, key: Reply<string>)
      requires Valid()
      requires w.Some? ==> IsDigits(w.value.price)
      modifies this
      ensures Valid()
      ensures w.None? ==> effects == old(effects) && sessions == old(sessions) && paymentStatus == old(paymentStatus)
      ensures w.Some? ==> effects == old(effects) + PaymentCalls(w.value, order, key)
      ensures w.Some? ==> paymentStatus == (if order.Ok? && key.Ok? then old(paymentStatus) else PaymentInitError)
      ensures w.Some? ==> (sessions == old(sessions) +
        if order.Ok? && key.Ok? then [Session(w.value, CheckoutOptions(w.value, key.value, order.value))] else [])
      ensures webinars == old(webinars) && loading == old(loading) && error == old(error)
      ensures selectedWebinar == old(selectedWebinar)
    {
      if w.None? {
        return;
      }
      var webinar := w.value;
      ghost var log := effects;
      effects := effects + [CreateOrder(webinar.price, webinar.id, order)];
      if order.Threw? {
        paymentStatus := PaymentInitError;
      } else {
        effects := effects + [GetKey(key)];
        if key.Threw? {
          paymentStatus := PaymentInitError;
        } else {
          var options := CheckoutOptions(webinar, key.value, order.value);
          effects := effects + [OpenGateway(options)];
          sessions := sessions + [Session(webinar, options)];
        }
      }
      ghost var calls := PaymentCalls(webinar, order, key);
      assert effects == log + calls;
      ExtendLog(log, calls, old(sessions), old(paymentStatus));
      if order.Ok? && key.Ok? {
        assert effects[|effects| - 1] == OpenGateway(sessions[|sessions| - 1].options);
        OpenSession(effects, old(sessions), sessions[|sessions| - 1]);
      }
    }

    /** The checkout's `handler` for the opened session `k`: send the
      confirmation with the session's webinar and order id; on success set
      the payment status and open the webinar page, otherwise only alert. */
    method HandlePaymentResponse(k: nat, response: GatewayResponse, success: Reply<bool>)
      requires Valid()
      requires k < |sessions|
      modifies this
      ensures Valid()
      ensures effects == old(effects) + VerificationCalls(old(sessions)[k], response, success)
      ensures paymentStatus == if success == Ok(true) then PaymentSuccessful else old(paymentStatus)
      ensures webinars == old(webinars) && loading == old(loading) && error == old(error)
      ensures selectedWebinar == old(selectedWebinar) && sessions == old(sessions)
    {
      var s := sessions[k];
      ghost var log := effects;
      var request := Verification(s.webinar.id, response.paymentId, s.options.orderId, response.signature);
      effects := effects + [ConfirmPayment(request, success)];
      if success == Ok(true) {
        paymentStatus := PaymentSuccessful;
        effects := effects + [Navigate(InfoPath(s.webinar.id))];
      } else {
        effects := effects + [Alert(VerificationFailed)];
      }
      ghost var calls := VerificationCalls(s, response, success);
      assert effects == log + calls;
      ExtendLog(log, calls, sessions, old(paymentStatus));
      assert effects[|log|] == calls[0];
    }
  }

  /** A free webinar not yet paid for opens its page directly. */
  method FreeWebinarScenario() {
    var page := new WebinarsPage(Str("t"));
    var free := Webinar("w1", "Intro", "A", "2024-01-01", "0");
    page.HandleEnroll(free, Ok(false), Threw, Threw);
    assert page.effects == [CheckStatus(free, Ok(false)), Navigate(InfoPath("w1"))];
  }

  /** A paid webinar at "499" not yet paid for: the checkout is opened for
      49900 paise with the order "o1" just created. */
  method PaidWebinarScenario() {
    var page := new WebinarsPage(Str("t"));
    var paid := Webinar("w2", "Deep dive", "B", "2024-02-01", "499");
    assert ParseInt(paid.price) == 499;
    assert Enroll(Ok(false), true, paid.price) == StartPayment;
    page.HandleEnroll(paid, Ok(false), Ok("o1"), Ok("k1"));
    assert page.sessions[0].options.amount == 49900 && page.sessions[0].options.orderId == "o1";
  }

  /** The handler of that checkout: a confirmed payment sets the status, a
      rejected one leaves it and only alerts. */
  method VerificationScenario(confirmed: bool) {
    var page := new WebinarsPage(Str("t"));
    var paid := Webinar("w2", "Deep dive", "B", "2024-02-01", "499");
    page.InitiatePayment(Some(paid), Ok("o1"), Ok("k1"));
    page.HandlePaymentResponse(0, GatewayResponse("p1", "o1", "s1"), Ok(confirmed));
    assert page.paymentStatus == (if confirmed then PaymentSuccessful else "");
  }

  /** A failed status check without a stored token redirects to login. */
  method SignedOutScenario() {
    var page := new WebinarsPage(Null);
    var paid := Webinar("w2", "Deep dive", "B", "2024-02-01", "499");
    page.HandleEnroll(paid, Threw, Threw, Threw);
    assert page.effects[1] == Navigate(LoginPath);
  }
}
