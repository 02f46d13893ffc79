/** The order history modal of
    `src/components/client/ClientOrderHistoryModal.tsx`: the status label and
    colour mappers, the fetch state, and which of its four panels is shown. */
module ClientOrderHistory {
  import opened Basics
  import opened Text
  import opened ClientTypes

  /** One row of the two `switch` statements: the lower-case status, its
      label and its badge classes. */
  datatype StatusRow = StatusRow(key: string, text: string, color: string)

  const FallbackColor: string := "bg-gray-100 text-gray-800"

  /** The statuses the modal knows, as a table; `StatusText` and
      `StatusColor` are the switches, proved to agree with it. */
  const Statuses: seq<StatusRow> := [
    StatusRow("pendiente", "Pendiente", "bg-yellow-100 text-yellow-800"),
    StatusRow("en_preparacion", "En Preparaci\U{00F3}n", "bg-blue-100 text-blue-800"),
    StatusRow("listo", "Listo", "bg-green-100 text-green-800"),
    StatusRow("entregado", "Entregado", "bg-gray-100 text-gray-800"),
    StatusRow("cancelado", "Cancelado", "bg-red-100 text-red-800")
  ]

  /** The row of the table whose key is the status lower-cased. */
  function Lookup(status: string): (r: Option<StatusRow>)
    ensures r.Some? ==> r.value in Statuses && r.value.key == ToLower(status)
    ensures r.None? ==> forall i :: 0 <= i < |Statuses| ==> Statuses[i].key != ToLower(status)
  {
    LookupIn(Statuses, ToLower(status))
  }

  function LookupIn(rows: seq<StatusRow>, key: string): (r: Option<StatusRow>)
    ensures r.Some? ==> r.value in rows && r.value.key == key
    ensures r.None? ==> forall i :: 0 <= i < |rows| ==> rows[i].key != key
  {
    if rows == [] then None
    else if rows[0].key == key then Some(rows[0])
    else LookupIn(rows[1..], key)
  }

  /** `getStatusText`: a known status, in any letter case, gets its row's
      label; an unknown one keeps its own text, casing included. */
  function StatusText(status: string): (t: string)
    ensures Lookup(status).Some? ==> t == Lookup(status).value.text
    ensures Lookup(status).None? ==> t == status
  {
    match ToLower(status)
    case "pendiente" => "Pendiente"
    case "en_preparacion" => "En Preparaci\U{00F3}n"
    case "listo" => "Listo"
    case "entregado" => "Entregado"
    case "cancelado" => "Cancelado"
    case _ => status
  }

  /** `getStatusColor`: a known status, in any letter case, gets its row's
      classes; an unknown one gets the fallback, which is the classes of
      "entregado". */
  function StatusColor(status: string): (c: string)
    ensures Lookup(status).Some? ==> c == Lookup(status).value.color
    ensures Lookup(status).None? ==> c == FallbackColor == Statuses[3].color
  {
    match ToLower(status)
    case "pendiente" => "bg-yellow-100 text-yellow-800"
    case "en_preparacion" => "bg-blue-100 text-blue-800"
    case "listo" => "bg-green-100 text-green-800"
    case "entregado" => "bg-gray-100 text-gray-800"
    case "cancelado" => "bg-red-100 text-red-800"
    case _ => FallbackColor
  }

  /** Case-insensitivity: statuses equal up to letter case get the same
      colour, and the same label unless the status is unknown. */
  lemma CaseInsensitive(a: string, b: string)
    requires ToLower(a) == ToLower(b)
    ensures StatusColor(a) == StatusColor(b)
    ensures Lookup(a).Some? ==> StatusText(a) == StatusText(b)
  {
  }

  /** Every spelling of a known status, whatever its letter case, gets that
      status's label and colour: the table's keys are distinct, so the row
      found is the one whose key the spelling lower-cases to. */
  lemma UpperCaseRecognised(status: string, i: int)
    requires 0 <= i < |Statuses| && ToLower(status) == Statuses[i].key
    ensures StatusText(status) == Statuses[i].text
    ensures StatusColor(status) == Statuses[i].color
  {
    var key := ToLower(status);
    if i == 0 {
      assert key == "pendiente";
    } else if i == 1 {
      assert key == "en_preparacion";
    } else if i == 2 {
      assert key == "listo";
    } else if i == 3 {
      assert key == "entregado";
    } else {
      assert key == "cancelado";
    }
  }

  const FetchErrorText: string := "Error al cargar el historial de pedidos"

  /** The modal's fetch state. */
  datatype HistoryState = HistoryState(orders: seq<Order>, loading: bool, error: Option<string>)

  /** The modal's state on mount: no orders, not loading, no error; a
      reachable state whose panel is the empty-history message. */
  function Initial(): (s: HistoryState)
    ensures s.orders == [] && !s.loading && s.error == None
    ensures Reachable(s)
    ensures Shown(s).empty && !Shown(s).spinner && !Shown(s).errorBanner && !Shown(s).list
  {
    HistoryState([], false, None)
  }

  /** The effect fetches when the modal is open and the client id is truthy. */
  predicate ShouldFetch(isOpen: bool, clientId: int) {
    isOpen && clientId != 0
  }

  /** The start of `fetchOrderHistory`: loading, no error, orders kept. */
  function BeginFetch(s: HistoryState): (s': HistoryState)
    ensures s'.loading && s'.error == None && s'.orders == s.orders
  {
    HistoryState(s.orders, true, None)
  }

  /** The end of `fetchOrderHistory`, with `reply` the history received or
      `None` when the request failed: the orders are replaced on success, the
      fixed message is shown on failure, and loading ends either way. */
  function FinishFetch(s: HistoryState, reply: Option<seq<Order>>): (s': HistoryState)
    ensures !s'.loading
    ensures reply.Some? ==> s'.orders == reply.value && s'.error == s.error
    ensures reply.None? ==> s'.orders == s.orders && s'.error == Some(FetchErrorText)
  {
    match reply
    case Some(history) => s.(orders := history, loading := false)
    case None => s.(loading := false, error := Some(FetchErrorText))
  }

  /** One whole `fetchOrderHistory` call: loading ends; a reply replaces the
      orders and leaves no error; a failure keeps the orders and sets the
      fixed message. The result is reachable from any state. */
  function Fetch(s: HistoryState, reply: Option<seq<Order>>): (s': HistoryState)
    ensures !s'.loading && Reachable(s')
    ensures reply.Some? ==> s'.orders == reply.value && s'.error == None
    ensures reply.None? ==> s'.orders == s.orders && s'.error == Some(FetchErrorText)
  {
    FinishFetch(BeginFetch(s), reply)
  }

  /** Which panels the modal renders. */
  datatype Panels = Panels(spinner: bool, errorBanner: bool, empty: bool, list: bool)

  function Shown(s: HistoryState): Panels {
    var hasError := s.error.Some? && s.error.value != "";
    Panels(s.loading,
           hasError,
           !s.loading && !hasError && |s.orders| == 0,
           !s.loading && !hasError && |s.orders| > 0)
  }

  /** What the modal shows: nothing while closed, its panels while open. */
  function Rendered(isOpen: bool, s: HistoryState): (r: Option<Panels>)
    ensures r.None? <==> !isOpen
    ensures r.Some? ==> r.value == Shown(s)
  {
    if isOpen then Some(Shown(s)) else None
  }

  /** A completed fetch decides the panel from the reply alone, whatever was
      shown before: the error banner exactly when the request failed, the
      empty-state message exactly for an empty history, and the list exactly
      for a non-empty one; the spinner is gone. */
  lemma FetchOutcome(s: HistoryState, reply: Option<seq<Order>>)
    ensures var p := Shown(Fetch(s, reply));
            && !p.spinner
            && (p.errorBanner <==> reply.None?)
            && (p.empty <==> reply == Some([]))
            && (p.list <==> reply.Some? && |reply.value| > 0)
  {
  }

  /** The states the fetch cycle can reach: never loading with an error, and
      the only error is the fixed message. */
  ghost predicate Reachable(s: HistoryState) {
    && (s.loading ==> s.error == None)
    && (s.error.Some? ==> s.error.value == FetchErrorText)
  }

  lemma ReachableClosed(s: HistoryState, reply: Option<seq<Order>>)
    ensures Reachable(Initial())
    ensures Reachable(s) ==> Reachable(BeginFetch(s))
    ensures Reachable(s) ==> Reachable(FinishFetch(s, reply))
  {
  }

  /** In every reachable state exactly one panel is shown; the empty-state
      panel shows exactly when nothing is loading, there is no error and
      there are no orders; and the list, with its summary, only when there
      is at least one order. */
  lemma ExactlyOnePanel(s: HistoryState)
    requires Reachable(s)
    ensures var p := Shown(s);
            (if p.spinner then 1 else 0) + (if p.errorBanner then 1 else 0)
            + (if p.empty then 1 else 0) + (if p.list then 1 else 0) == 1
    ensures Shown(s).empty <==> !s.loading && s.error == None && |s.orders| == 0
    ensures Shown(s).list ==> |s.orders| > 0
  {
  }

  /** The amount spent: the sum of the orders' totals. */
  function SumTotals(orders: seq<Order>): real {
    if orders == [] then 0.0 else orders[0].total + SumTotals(orders[1..])
  }

  /** `orders.reduce((sum, order) => sum + order.total, acc)`: a left fold. */
  function ReduceTotals(orders: seq<Order>, acc: real): real {
    if orders == [] then acc else ReduceTotals(orders[1..], acc + orders[0].total)
  }

  /** The left fold the component computes is the sum of the totals, added
      to the initial value. */
  lemma {:induction false} ReduceIsSum(orders: seq<Order>, acc: real)
    ensures ReduceTotals(orders, acc) == acc + SumTotals(orders)
  {
    if orders != [] {
      ReduceIsSum(orders[1..], acc + orders[0].total);
    }
  }

  /** The summary block: number of orders, amount spent and average per
      order. It exists only for a non-empty list, so the average never
      divides by zero. */
  datatype Summary = Summary(count: nat, spent: real, average: real)

  function Summarise(orders: seq<Order>): (r: Summary)
    requires |orders| > 0
    ensures r.count == |orders| && r.spent == SumTotals(orders)
    ensures r.average * (r.count as real) == r.spent
  {
    var spent := ReduceTotals(orders, 0.0);
    ReduceIsSum(orders, 0.0);
    Summary(|orders|, spent, spent / (|orders| as real))
  }

  /** The summary the modal shows, if any: the count, sum and average of
      exactly the orders in the list. */
  function ShownSummary(s: HistoryState): (r: Option<Summary>)
    ensures r.Some? <==> Shown(s).list
    ensures r.Some? ==> |s.orders| > 0 && r.value == Summarise(s.orders)
    ensures r.Some? ==> r.value.count == |s.orders| && r.value.spent == SumTotals(s.orders)
  {
    if Shown(s).list then Some(Summarise(s.orders)) else None
  }
}
