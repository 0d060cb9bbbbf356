/**
 * The withdrawals page: the seller's balances, the list of withdrawal
 * requests, and the request handler that validates an amount and moves it
 * from the available to the pending balance.
 */
module Withdrawals {
  import opened Wrappers
  import opened Text
  import opened Sorting
  import opened Calendar
  import opened ListView

  /** One withdrawal request; `amount` is in cents, `reason` is set on rejected requests. */
  datatype Withdrawal = Withdrawal(
    id: string,
    amount: int,
    payoutMethod: string,  // the record's `method`
    status: string,
    date: Date,
    reference: string,
    reason: Option<string>)

  /** A saved payment method; `kind` is the record's `type` ("bank" or "paypal"). */
  datatype PaymentMethod = PaymentMethod(id: string, kind: string, name: string, details: string, isDefault: bool)

  /** The balances (in cents) and the requests, newest first once a request has been made. */
  datatype Ledger = Ledger(withdrawals: seq<Withdrawal>, balance: int, pending: int, available: int)

  /** The toasts a rejected request shows; `UnknownPaymentMethod` is the `find` returning nothing. */
  datatype RequestError = InvalidAmount | InsufficientFunds | PaymentMethodRequired | UnknownPaymentMethod

  /** The id of the `n`-th request, `w-${n}`. */
  function RequestId(n: nat): string
  {
    "w-" + NatToString(n)
  }

  /**
   * The ledger's invariant: the balance is the available plus the pending
   * amount, nothing is overdrawn, and the ids are distinct `w-1`..`w-n`.
   */
  predicate ValidLedger(l: Ledger)
  {
    l.balance == l.available + l.pending
    && l.available >= 0
    && IdsNumbered(l.withdrawals)
  }

  /** The ids of `ws` are distinct and each is `w-k` for some `k` from 1 to `|ws|`. */
  predicate IdsNumbered(ws: seq<Withdrawal>)
  {
    IdsInRange(ws) && IdsDistinct(ws)
  }

  predicate IdsInRange(ws: seq<Withdrawal>)
  {
    forall i :: 0 <= i < |ws| ==> exists k :: 1 <= k <= |ws| && ws[i].id == RequestId(k)
  }

  predicate IdsDistinct(ws: seq<Withdrawal>)
  {
    forall i, j :: 0 <= i < j < |ws| ==> ws[i].id != ws[j].id
  }

  /** `paymentMethods.find((pm) => pm.id === id)`: the first method with that id. */
  function FindMethod(methods: seq<PaymentMethod>, id: string): (r: Option<PaymentMethod>)
    ensures r.Some? ==> r.value in methods && r.value.id == id
    ensures r.Some? ==>
      exists i :: 0 <= i < |methods| && r.value == methods[i] && (forall j :: 0 <= j < i ==> methods[j].id != id)
    ensures r.None? ==> forall i :: 0 <= i < |methods| ==> methods[i].id != id
    ensures forall i :: 0 <= i < |methods| && methods[i].id == id ==> r.Some?
  {
    if methods == [] then None
    else if methods[0].id == id then Some(methods[0])
    else FindMethod(methods[1..], id)
  }

  /** The method column of a new request. */
  function MethodLabel(pm: PaymentMethod): string
  {
    if pm.kind == "bank" then "Bank Transfer" else "PayPal"
  }

  /**
   * `handleWithdrawalRequest` on the balances: `amount` is the parsed
   * input in cents (`None` for NaN), `today` the current date and
   * `referenceNumber` the random number of the reference.
   */
  function Request(l: Ledger, amount: Option<int>, methods: seq<PaymentMethod>, selected: string, today: Date, referenceNumber: nat): (r: Result<Ledger, RequestError>)
    ensures (amount.None? || amount.value <= 0) <==> r == Err(InvalidAmount)
    ensures r == Err(InsufficientFunds) <==> amount.Some? && 0 < amount.value && amount.value > l.available
    ensures r == Err(PaymentMethodRequired) <==> amount.Some? && 0 < amount.value <= l.available && selected == ""
    ensures r.Ok? <==> amount.Some? && 0 < amount.value <= l.available && selected != "" && FindMethod(methods, selected).Some?
    ensures r.Ok? ==>
      && r.value.withdrawals == [Withdrawal(RequestId(|l.withdrawals| + 1), amount.value, MethodLabel(FindMethod(methods, selected).value),
                                            "processing", today, "WD-" + NatToString(referenceNumber), None)] + l.withdrawals
      && r.value.available == l.available - amount.value
      && r.value.pending == l.pending + amount.value
      && r.value.balance == l.balance
  {
    if amount.None? || amount.value <= 0 then Err(InvalidAmount)
    else if amount.value > l.available then Err(InsufficientFunds)
    else if selected == "" then Err(PaymentMethodRequired)
    else
      match FindMethod(methods, selected)
      case None => Err(UnknownPaymentMethod)
      case Some(pm) =>
        var w := Withdrawal(RequestId(|l.withdrawals| + 1), amount.value, MethodLabel(pm), "processing",
                            today, "WD-" + NatToString(referenceNumber), None);
        Ok(Ledger([w] + l.withdrawals, l.balance, l.pending + amount.value, l.available - amount.value))
  }

  /** The comparator of `sortedWithdrawals`: amount, method or status, and the date for any other field. */
  function WithdrawalOrder(sort: SortState): (Withdrawal, Withdrawal) -> int
  {
    if sort.field == "amount" then ByNumber((w: Withdrawal) => w.amount, sort.direction)
    else if sort.field == "method" then ByText((w: Withdrawal) => w.payoutMethod, sort.direction)
    else if sort.field == "status" then ByText((w: Withdrawal) => w.status, sort.direction)
    else ByNumber((w: Withdrawal) => DayNumber(w.date), sort.direction)
  }

  // ------------------------------------------------------------ lemmas

  lemma RequestIdInjective(m: nat, n: nat)
    ensures RequestId(m) == RequestId(n) <==> m == n
  {
    if RequestId(m) == RequestId(n) {
      assert RequestId(m)[2..] == NatToString(m);
      assert RequestId(n)[2..] == NatToString(n);
      NatToStringInjective(m, n);
    }
  }

  /** An accepted request keeps the invariant: the money moves, the total does not change, and the new id is fresh. */
  lemma RequestKeepsLedgerValid(l: Ledger, amount: Option<int>, methods: seq<PaymentMethod>, selected: string, today: Date, referenceNumber: nat)
    requires ValidLedger(l)
    ensures var r := Request(l, amount, methods, selected, today, referenceNumber);
      r.Ok? ==>
        (ValidLedger(r.value)
         && r.value.available + r.value.pending == l.available + l.pending
         && forall i :: 0 <= i < |l.withdrawals| ==> l.withdrawals[i].id != r.value.withdrawals[0].id)
  {
    var r := Request(l, amount, methods, selected, today, referenceNumber);
    if r.Ok? {
      PrependNextId(l.withdrawals, r.value.withdrawals[0]);
      assert r.value.withdrawals == [r.value.withdrawals[0]] + l.withdrawals;
    }
  }

  /** Putting the request numbered one past the last in front keeps the ids numbered, and it is fresh. */
  lemma PrependNextId(ws: seq<Withdrawal>, w: Withdrawal)
    requires IdsNumbered(ws) && w.id == RequestId(|ws| + 1)
    ensures IdsNumbered([w] + ws)
    ensures forall i :: 0 <= i < |ws| ==> ws[i].id != w.id
  {
    NextIdFresh(ws, w);
    PrependInRange(ws, w);
    PrependDistinct(ws, w);
  }

  lemma NextIdFresh(ws: seq<Withdrawal>, w: Withdrawal)
    requires IdsInRange(ws) && w.id == RequestId(|ws| + 1)
    ensures forall i :: 0 <= i < |ws| ==> ws[i].id != w.id
  {
    forall i | 0 <= i < |ws| ensures ws[i].id != w.id {
      var k :| 1 <= k <= |ws| && ws[i].id == RequestId(k);
      RequestIdInjective(k, |ws| + 1);
    }
  }

  lemma PrependInRange(ws: seq<Withdrawal>, w: Withdrawal)
    requires IdsInRange(ws) && w.id == RequestId(|ws| + 1)
    ensures IdsInRange([w] + ws)
  {
    var vs := [w] + ws;
    forall i | 0 <= i < |vs| ensures exists k :: 1 <= k <= |vs| && vs[i].id == RequestId(k) {
      if i == 0 {
        assert vs[0].id == RequestId(|vs|);
      } else {
        assert vs[i] == ws[i - 1];
        var k :| 1 <= k <= |ws| && ws[i - 1].id == RequestId(k);
        assert 1 <= k <= |vs| && vs[i].id == RequestId(k);
      }
    }
  }

  lemma PrependDistinct(ws: seq<Withdrawal>, w: Withdrawal)
    requires IdsDistinct(ws) && forall i :: 0 <= i < |ws| ==> ws[i].id != w.id
    ensures IdsDistinct([w] + ws)
  {
    var vs := [w] + ws;
    forall i, j | 0 <= i < j < |vs| ensures vs[i].id != vs[j].id {
      assert vs[j] == ws[j - 1];
      if i > 0 {
        assert vs[i] == ws[i - 1];
      }
    }
  }

  /** Requests are refused in this order: the amount first, then the funds, then the method. */
  lemma RequestCheckOrder(l: Ledger, amount: Option<int>, methods: seq<PaymentMethod>, selected: string, today: Date, referenceNumber: nat)
    ensures amount.Some? && amount.value <= 0 ==> Request(l, amount, methods, selected, today, referenceNumber) == Err(InvalidAmount)
    ensures amount.Some? && amount.value > l.available && amount.value > 0 && selected == "" ==>
      Request(l, amount, methods, selected, today, referenceNumber) == Err(InsufficientFunds)
  {
  }

  /** There is no minimum: one cent is accepted while it is available and a known method is selected. */
  lemma OneCentAccepted(l: Ledger, methods: seq<PaymentMethod>, today: Date, referenceNumber: nat)
    requires l.available >= 1 && |methods| > 0 && methods[0].id != ""
    ensures Request(l, Some(1), methods, methods[0].id, today, referenceNumber).Ok?
  {
  }

  /** The whole available balance can be withdrawn, leaving nothing available. */
  lemma WithdrawAllAvailable(l: Ledger, methods: seq<PaymentMethod>, selected: string, today: Date, referenceNumber: nat)
    requires ValidLedger(l) && l.available > 0 && selected != "" && FindMethod(methods, selected).Some?
    ensures var r := Request(l, Some(l.available), methods, selected, today, referenceNumber);
      r.Ok? && r.value.available == 0 && r.value.pending == l.balance
  {
  }

  lemma WithdrawalOrderIsComparator(sort: SortState)
    ensures IsComparator(WithdrawalOrder(sort))
  {
    if sort.field == "amount" {
      ByNumberIsComparator((w: Withdrawal) => w.amount, sort.direction);
    } else if sort.field == "method" {
      ByTextIsComparator((w: Withdrawal) => w.payoutMethod, sort.direction);
    } else if sort.field == "status" {
      ByTextIsComparator((w: Withdrawal) => w.status, sort.direction);
    } else {
      ByNumberIsComparator((w: Withdrawal) => DayNumber(w.date), sort.direction);
    }
  }

  /** The shown list is the requests sorted: a sorted permutation keeping ties in list order. */
  lemma SortedWithdrawalsArePermutation(ws: seq<Withdrawal>, sort: SortState)
    ensures var shown := Sort(ws, WithdrawalOrder(sort));
      Sorted(shown, WithdrawalOrder(sort)) && multiset(shown) == multiset(ws)
      && forall k :: RankOf(shown, WithdrawalOrder(sort), k) == RankOf(ws, WithdrawalOrder(sort), k)
  {
    WithdrawalOrderIsComparator(sort);
    SortSorted(ws, WithdrawalOrder(sort));
    SortPermutation(ws, WithdrawalOrder(sort));
    forall k ensures RankOf(Sort(ws, WithdrawalOrder(sort)), WithdrawalOrder(sort), k) == RankOf(ws, WithdrawalOrder(sort), k) {
      SortStable(ws, WithdrawalOrder(sort), k);
    }
  }

  // ------------------------------------------------------------ the page

  class WithdrawalsPage {
    var withdrawals: seq<Withdrawal>
    var paymentMethods: seq<PaymentMethod>
    var balance: int
    var pendingBalance: int
    var availableBalance: int
    var withdrawalAmount: string
    var selectedPaymentMethod: string
    var isWithdrawalDialogOpen: bool
    var sort: SortState

    function CurrentLedger(): Ledger
      reads this
    {
      Ledger(withdrawals, balance, pendingBalance, availableBalance)
    }

    /** The state after loading: the seeded balances and the first payment method selected. */
    constructor (loaded: seq<Withdrawal>, methods: seq<PaymentMethod>)
      requires |methods| > 0
      ensures withdrawals == loaded && paymentMethods == methods
      ensures balance == 245075 && pendingBalance == 75025 && availableBalance == 170050
      ensures balance == availableBalance + pendingBalance
      ensures withdrawalAmount == "" && selectedPaymentMethod == methods[0].id && !isWithdrawalDialogOpen
      ensures sort == SortState("date", Desc)
    {
      withdrawals := loaded;
      paymentMethods := methods;
      balance := 245075;
      pendingBalance := 75025;
      availableBalance := 170050;
      withdrawalAmount := "";
      selectedPaymentMethod := methods[0].id;
      isWithdrawalDialogOpen := false;
      sort := SortState("date", Desc);
    }

    /** `sortedWithdrawals`. */
    function SortedWithdrawals(): seq<Withdrawal>
      reads this
    {
      Sort(withdrawals, WithdrawalOrder(sort))
    }

    method SetWithdrawalAmount(s: string)
      modifies this
      ensures withdrawalAmount == s && CurrentLedger() == old(CurrentLedger())
      ensures paymentMethods == old(paymentMethods) && selectedPaymentMethod == old(selectedPaymentMethod)
      ensures isWithdrawalDialogOpen == old(isWithdrawalDialogOpen) && sort == old(sort)
    {
      withdrawalAmount := s;
    }

    method SetSelectedPaymentMethod(id: string)
      modifies this
      ensures selectedPaymentMethod == id && CurrentLedger() == old(CurrentLedger())
      ensures paymentMethods == old(paymentMethods) && withdrawalAmount == old(withdrawalAmount)
      ensures isWithdrawalDialogOpen == old(isWithdrawalDialogOpen) && sort == old(sort)
    {
      selectedPaymentMethod := id;
    }

    method SetWithdrawalDialogOpen(open: bool)
      modifies this
      ensures isWithdrawalDialogOpen == open && CurrentLedger() == old(CurrentLedger())
      ensures paymentMethods == old(paymentMethods) && withdrawalAmount == old(withdrawalAmount)
      ensures selectedPaymentMethod == old(selectedPaymentMethod) && sort == old(sort)
    {
      isWithdrawalDialogOpen := open;
    }

    method HandleSort(field: string)
      modifies this
      ensures sort == NextSort(old(sort), field) && CurrentLedger() == old(CurrentLedger())
      ensures paymentMethods == old(paymentMethods) && withdrawalAmount == old(withdrawalAmount)
      ensures selectedPaymentMethod == old(selectedPaymentMethod) && isWithdrawalDialogOpen == old(isWithdrawalDialogOpen)
    {
      if sort.field == field {
        sort := SortState(field, Flip(sort.direction));
      } else {
        sort := SortState(field, Asc);
      }
    }

    /**
     * `handleWithdrawalRequest`, with `amount` standing for
     * `parseFloat(withdrawalAmount)` in cents. An accepted request updates
     * the ledger, closes the dialog and clears the input; a rejected one
     * changes nothing and returns the error its toast reports.
     */
    method HandleWithdrawalRequest(amount: Option<int>, today: Date, referenceNumber: nat) returns (error: Option<RequestError>)
      modifies this
      ensures var r := Request(old(CurrentLedger()), amount, old(paymentMethods), old(selectedPaymentMethod), today, referenceNumber);
        match r
        case Ok(l) =>
          error == None && CurrentLedger() == l && !isWithdrawalDialogOpen && withdrawalAmount == ""
        case Err(e) =>
          error == Some(e) && CurrentLedger() == old(CurrentLedger())
          && isWithdrawalDialogOpen == old(isWithdrawalDialogOpen) && withdrawalAmount == old(withdrawalAmount)
      ensures ValidLedger(old(CurrentLedger())) ==> ValidLedger(CurrentLedger())
      ensures paymentMethods == old(paymentMethods) && selectedPaymentMethod == old(selectedPaymentMethod) && sort == old(sort)
    {
      var r := Request(CurrentLedger(), amount, paymentMethods, selectedPaymentMethod, today, referenceNumber);
      if ValidLedger(CurrentLedger()) {
        RequestKeepsLedgerValid(CurrentLedger(), amount, paymentMethods, selectedPaymentMethod, today, referenceNumber);
      }
      match r {
        case Err(e) =>
          error := Some(e);
        case Ok(l) =>
          withdrawals := l.withdrawals;
          availableBalance := l.available;
          pendingBalance := l.pending;
          isWithdrawalDialogOpen := false;
          withdrawalAmount := "";
          error := None;
      }
    }
  }
}
