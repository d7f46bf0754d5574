/**
 * The application store: a sidebar flag and the state shared by three
 * asynchronous actions (`isLoading`, `error`, `data`, `currencies`).
 *
 * An asynchronous action is split at its suspension point: `Begin` is the
 * synchronous entry step every action shares, and the *Settled step runs when
 * the awaited timer or request settles, with the outcome given as a parameter.
 * It records the outcome and then runs the `finally` reset. `State` is the
 * store's state as a value, and one function per step gives the state the step
 * leaves. `Store` is the store itself, whose methods update its fields step by
 * step and are proved to leave exactly that state.
 */
module AppStore {
  import opened Wrappers
  import opened DecimalText

  /** One entry of an exchange-rate table. */
  datatype Rate = Rate(currency: string, code: string, mid: real)

  /** The JavaScript values a caller can hand to `saveData` and the store can hold in `data`. */
  datatype Value =
    | Undefined
    | Null
    | Bool(b: bool)
    | Number(n: real)
    | Str(s: string)
    | Array(items: seq<Value>)
    | Object(fields: map<string, Value>)
    | Function

  /** What a `catch` receives: an `Error` object with its message, or any other thrown value. */
  datatype Thrown = ErrorObject(message: string) | OtherValue

  /**
   * How an awaited timer settles; a resolution carries the `Date.now()` reading
   * taken after it. The simulated call only ever resolves, so `Rejected` stands
   * for the `catch` branches of `fetchData` and `saveData`, which the code as it
   * stands never reaches.
   */
  datatype Settled = Resolved(timestamp: nat) | Rejected(reason: Thrown)

  /** The decoded body of the exchange-rate response: its tables' rate lists, or the error decoding threw. */
  datatype Body = Tables(tables: seq<seq<Rate>>) | Unreadable(reason: Thrown)

  /** How the exchange-rate request settles. */
  datatype Response = NetworkFailure(reason: Thrown) | Received(status: nat, body: Body)

  /** JavaScript falsiness; arrays, objects and functions are always truthy. */
  function Falsy(v: Value): (r: bool)
    ensures r ==> !(v.Array? || v.Object? || v.Function?)
  {
    v == Undefined || v == Null || v == Bool(false) || v == Number(0.0) || v == Str("")
  }

  /** The `typeof` operator: "object" for null, arrays and objects alike. */
  function TypeOf(v: Value): (r: string)
    ensures r == "object" <==> v.Null? || v.Array? || v.Object?
  {
    match v
    case Undefined => "undefined"
    case Null => "object"
    case Bool(_) => "boolean"
    case Number(_) => "number"
    case Str(_) => "string"
    case Array(_) => "object"
    case Object(_) => "object"
    case Function => "function"
  }

  /** The validation guard of `saveData`: a falsy payload or one whose `typeof` is not "object". */
  function InvalidPayload(v: Value): (r: bool)
    ensures r <==> !(v.Array? || v.Object?)
  {
    Falsy(v) || TypeOf(v) != "object"
  }

  /** The own properties that `{...v}` copies: an object's fields, or an array's indices as decimal keys. */
  function Spread(v: Value): (m: map<string, Value>)
    requires v.Array? || v.Object?
    ensures v.Object? ==> m == v.fields
    ensures v.Array? ==> forall i :: 0 <= i < |v.items| ==> NatToDecimal(i) in m && m[NatToDecimal(i)] == v.items[i]
    ensures v.Array? ==> m.Keys == set i | 0 <= i < |v.items| :: NatToDecimal(i)
  {
    if v.Object? then v.fields
    else
      DecimalInjective();
      map i | 0 <= i < |v.items| :: NatToDecimal(i) := v.items[i]
  }

  /** `{ ...payload, saved: true, timestamp }`. */
  function Augmented(payload: Value, timestamp: nat): (r: Value)
    requires !InvalidPayload(payload)
    ensures r.Object? && r.fields.Keys == Spread(payload).Keys + {"saved", "timestamp"}
    ensures r.fields["saved"] == Bool(true) && r.fields["timestamp"] == Number(timestamp as real)
    ensures forall k :: k in Spread(payload) && k != "saved" && k != "timestamp" ==> r.fields[k] == Spread(payload)[k]
  {
    Object(Spread(payload)["saved" := Bool(true)]["timestamp" := Number(timestamp as real)])
  }

  /** The record `fetchData` stores. */
  function FetchedRecord(timestamp: nat): (r: Value)
    ensures r.Object? && r.fields.Keys == {"message", "timestamp"}
    ensures r.fields["message"] == Str("Data fetched successfully!") && r.fields["timestamp"] == Number(timestamp as real)
  {
    Object(map["message" := Str("Data fetched successfully!"), "timestamp" := Number(timestamp as real)])
  }

  /** `err instanceof Error ? err.message : fallback`. */
  function ErrorMessage(err: Thrown, fallback: string): (r: string)
    ensures err.ErrorObject? ==> r == err.message
    ensures err.OtherValue? ==> r == fallback
  {
    match err
    case ErrorObject(message) => message
    case OtherValue => fallback
  }

  /** `response.ok`: a status in the range 200-299. */
  function IsOk(status: nat): (ok: bool)
    ensures ok <==> 200 <= status < 300
  {
    200 <= status <= 299
  }

  const HttpErrorPrefix: string := "HTTP error! status: "

  /** The message thrown on a non-ok response: the fixed prefix, then the status in digits. */
  function HttpErrorMessage(status: nat): (r: string)
    ensures |HttpErrorPrefix| < |r| && r[..|HttpErrorPrefix|] == HttpErrorPrefix
    ensures AllDigits(r[|HttpErrorPrefix|..])
  {
    HttpErrorPrefix + NatToDecimal(status)
  }

  /** The message thrown on a non-ok response names the status: it can be read back from the text. */
  lemma HttpErrorNamesStatus(status: nat)
    ensures var m := HttpErrorMessage(status);
      |HttpErrorPrefix| < |m| && m[..|HttpErrorPrefix|] == HttpErrorPrefix
      && AllDigits(m[|HttpErrorPrefix|..]) && DecimalValue(m[|HttpErrorPrefix|..]) == status
  {
    var m := HttpErrorMessage(status);
    assert m[|HttpErrorPrefix|..] == NatToDecimal(status);
    DecimalRoundTrip(status);
  }

  function Min(a: int, b: int): int {
    if a <= b then a else b
  }

  /** `nbpData[0]?.rates.slice(0, 10) || []`: the first ten rates of the first table, in order. */
  function FirstRates(tables: seq<seq<Rate>>): (r: seq<Rate>)
    ensures tables == [] ==> r == []
    ensures tables != [] ==> |r| == Min(10, |tables[0]|) && r <= tables[0]
  {
    if tables == [] then [] else tables[0][..Min(10, |tables[0]|)]
  }

  /** The store's state as a value. */
  datatype State = State(sidebarOpen: bool, loading: bool, error: Option<string>, data: Value, currencies: seq<Rate>)

  /** The refs' initial values. */
  function Initial(): (r: State)
    ensures !r.sidebarOpen && !r.loading && r.error == None && r.data == Null && r.currencies == []
  {
    State(false, false, None, Null, [])
  }

  function SidebarToggled(s: State): (r: State)
    ensures r.sidebarOpen == !s.sidebarOpen && r.(sidebarOpen := s.sidebarOpen) == s
  {
    s.(sidebarOpen := !s.sidebarOpen)
  }

  function SidebarOpened(s: State): (r: State)
    ensures r.sidebarOpen && r.(sidebarOpen := s.sidebarOpen) == s
  {
    s.(sidebarOpen := true)
  }

  function SidebarClosed(s: State): (r: State)
    ensures !r.sidebarOpen && r.(sidebarOpen := s.sidebarOpen) == s
  {
    s.(sidebarOpen := false)
  }

  /** The sidebar actions flip or set the flag, and touch nothing else. */
  lemma SidebarActions(s: State)
    ensures SidebarToggled(SidebarToggled(s)) == s && SidebarToggled(s).sidebarOpen != s.sidebarOpen
    ensures SidebarOpened(SidebarOpened(s)) == SidebarOpened(s) && SidebarOpened(s).sidebarOpen
    ensures SidebarClosed(SidebarClosed(s)) == SidebarClosed(s) && !SidebarClosed(s).sidebarOpen
    ensures SidebarToggled(s).(sidebarOpen := s.sidebarOpen) == s
    ensures SidebarOpened(s).(sidebarOpen := s.sidebarOpen) == s
    ensures SidebarClosed(s).(sidebarOpen := s.sidebarOpen) == s
  {
  }

  /** The entry step every asynchronous action shares. */
  function Begun(s: State): (r: State)
    ensures r.loading && r.error == None
    ensures r.(loading := s.loading, error := s.error) == s
  {
    s.(loading := true, error := None)
  }

  /** `fetchData` after its timer settles: record the outcome, then clear the loading flag. */
  function DataSettled(s: State, outcome: Settled): (r: State)
    ensures !r.loading && r.sidebarOpen == s.sidebarOpen && r.currencies == s.currencies
    ensures outcome.Resolved? ==> r.error == s.error && r.data == FetchedRecord(outcome.timestamp)
    ensures outcome.Rejected? ==> r.data == s.data && r.error == Some(ErrorMessage(outcome.reason, "Unknown error"))
  {
    var recorded :=
      match outcome
      case Resolved(timestamp) => s.(data := FetchedRecord(timestamp))
      case Rejected(reason) => s.(error := Some(ErrorMessage(reason, "Unknown error")));
    recorded.(loading := false)
  }

  /** `fetchData` from entry to exit. */
  function FetchedData(s: State, outcome: Settled): (r: State)
    ensures !r.loading && r.sidebarOpen == s.sidebarOpen && r.currencies == s.currencies
    ensures r.error == None <==> outcome.Resolved?
    ensures outcome.Resolved? ==> r.data == FetchedRecord(outcome.timestamp)
    ensures outcome.Rejected? ==> r.data == s.data && r.error == Some(ErrorMessage(outcome.reason, "Unknown error"))
  {
    DataSettled(Begun(s), outcome)
  }

  /**
   * `saveData(payload)` after its validation and timer: the new state and the
   * error re-thrown to the caller, if any. An invalid payload never reaches the timer.
   */
  function SaveSettled(s: State, payload: Value, outcome: Settled): (r: (State, Option<Thrown>))
    ensures !r.0.loading && r.0.sidebarOpen == s.sidebarOpen && r.0.currencies == s.currencies
    ensures r.1 == None ==> r.0.error == s.error
    ensures r.1 != None ==> r.0.data == s.data && r.0.error == Some(ErrorMessage(r.1.value, "Save failed"))
    ensures InvalidPayload(payload) ==> r.1 == Some(ErrorObject("Invalid payload"))
    ensures !InvalidPayload(payload) && outcome.Resolved? ==> r.0.data == Augmented(payload, outcome.timestamp) && r.1 == None
    ensures !InvalidPayload(payload) && outcome.Rejected? ==> r.1 == Some(outcome.reason)
  {
    var (recorded, rethrown) :=
      if InvalidPayload(payload) then
        (s.(error := Some("Invalid payload")), Some(ErrorObject("Invalid payload")))
      else
        match outcome
        case Resolved(timestamp) => (s.(data := Augmented(payload, timestamp)), None)
        case Rejected(reason) => (s.(error := Some(ErrorMessage(reason, "Save failed"))), Some(reason));
    (recorded.(loading := false), rethrown)
  }

  /** `saveData` from entry to exit. */
  function SavedData(s: State, payload: Value, outcome: Settled): (r: (State, Option<Thrown>))
    ensures !r.0.loading && r.0.sidebarOpen == s.sidebarOpen && r.0.currencies == s.currencies
    ensures r.0.error == None <==> r.1 == None
    ensures InvalidPayload(payload) ==>
      r.0.error == Some("Invalid payload") && r.1 == Some(ErrorObject("Invalid payload")) && r.0.data == s.data
    ensures !InvalidPayload(payload) && outcome.Resolved? ==>
      r.0.data == Augmented(payload, outcome.timestamp) && r.1 == None
    ensures !InvalidPayload(payload) && outcome.Rejected? ==>
      r.0.data == s.data && r.1 == Some(outcome.reason) && r.0.error == Some(ErrorMessage(outcome.reason, "Save failed"))
  {
    SaveSettled(Begun(s), payload, outcome)
  }

  /** `fetchCurrencies` after its request settles: record the outcome, then clear the loading flag. */
  function CurrenciesSettled(s: State, response: Response): (r: State)
    ensures !r.loading && r.sidebarOpen == s.sidebarOpen && r.data == s.data
    ensures Delivered(response) ==> r.error == s.error && r.currencies == FirstRates(response.body.tables)
    ensures !Delivered(response) ==> r.currencies == s.currencies && r.error != None
    ensures response.Received? && !IsOk(response.status) ==> r.error == Some(HttpErrorMessage(response.status))
    ensures response.NetworkFailure? ==> r.error == Some(ErrorMessage(response.reason, "Failed to fetch currencies"))
    ensures response.Received? && IsOk(response.status) && response.body.Unreadable? ==>
      r.error == Some(ErrorMessage(response.body.reason, "Failed to fetch currencies"))
  {
    var recorded :=
      match response
      case NetworkFailure(reason) => s.(error := Some(ErrorMessage(reason, "Failed to fetch currencies")))
      case Received(status, body) =>
        if !IsOk(status) then s.(error := Some(HttpErrorMessage(status)))
        else
          match body
          case Unreadable(reason) => s.(error := Some(ErrorMessage(reason, "Failed to fetch currencies")))
          case Tables(tables) => s.(currencies := FirstRates(tables));
    recorded.(loading := false)
  }

  /** The request succeeded: an ok status and a readable body. */
  predicate Delivered(response: Response) {
    response.Received? && IsOk(response.status) && response.body.Tables?
  }

  /** `fetchCurrencies` from entry to exit. */
  function FetchedCurrencies(s: State, response: Response): (r: State)
    ensures !r.loading && r.sidebarOpen == s.sidebarOpen && r.data == s.data
    ensures r.error == None <==> Delivered(response)
    ensures Delivered(response) ==> r.currencies == FirstRates(response.body.tables)
    ensures !Delivered(response) ==> r.currencies == s.currencies
    ensures response.Received? && !IsOk(response.status) ==> r.error == Some(HttpErrorMessage(response.status))
    ensures response.NetworkFailure? ==> r.error == Some(ErrorMessage(response.reason, "Failed to fetch currencies"))
    ensures response.Received? && IsOk(response.status) && response.body.Unreadable? ==>
      r.error == Some(ErrorMessage(response.body.reason, "Failed to fetch currencies"))
  {
    CurrenciesSettled(Begun(s), response)
  }

  /** `resetData`: back to the initial async state from anywhere; the sidebar keeps its flag. */
  function Reset(s: State): (r: State)
    ensures r == Initial().(sidebarOpen := s.sidebarOpen)
  {
    s.(data := Null, currencies := [], error := None, loading := false)
  }

  /** A store action run to completion. */
  datatype Action =
    | ToggleSidebar
    | OpenSidebar
    | CloseSidebar
    | FetchData(outcome: Settled)
    | SaveData(payload: Value, saveOutcome: Settled)
    | FetchCurrencies(response: Response)
    | ResetData

  function Perform(s: State, a: Action): State {
    match a
    case ToggleSidebar => SidebarToggled(s)
    case OpenSidebar => SidebarOpened(s)
    case CloseSidebar => SidebarClosed(s)
    case FetchData(outcome) => FetchedData(s, outcome)
    case SaveData(payload, outcome) => SavedData(s, payload, outcome).0
    case FetchCurrencies(response) => FetchedCurrencies(s, response)
    case ResetData => Reset(s)
  }

  function Run(s: State, actions: seq<Action>): State
    decreases |actions|
  {
    if actions == [] then s else Run(Perform(s, actions[0]), actions[1..])
  }

  /** The sidebar flag as the sidebar actions alone would leave it. */
  function SidebarAfter(open: bool, actions: seq<Action>): bool
    decreases |actions|
  {
    if actions == [] then open
    else
      var next :=
        match actions[0]
        case ToggleSidebar => !open
        case OpenSidebar => true
        case CloseSidebar => false
        case _ => open;
      SidebarAfter(next, actions[1..])
  }

  /** Once every action has run to completion, nothing is left loading. */
  lemma {:induction false} RunSettles(s: State, actions: seq<Action>)
    requires !s.loading
    ensures !Run(s, actions).loading
    decreases |actions|
  {
    if actions != [] {
      RunSettles(Perform(s, actions[0]), actions[1..]);
    }
  }

  /** The asynchronous actions and the reset never move the sidebar. */
  lemma {:induction false} SidebarIndependent(s: State, actions: seq<Action>)
    ensures Run(s, actions).sidebarOpen == SidebarAfter(s.sidebarOpen, actions)
    decreases |actions|
  {
    if actions != [] {
      SidebarIndependent(Perform(s, actions[0]), actions[1..]);
    }
  }

  /** The store instance, with one field per ref. */
  class Store {
    var isSidebarOpen: bool
    var isLoading: bool
    var error: Option<string>
    var data: Value
    var currencies: seq<Rate>

    function View(): State
      reads this
    {
      State(isSidebarOpen, isLoading, error, data, currencies)
    }

    constructor ()
      ensures View() == Initial()
    {
      isSidebarOpen := false;
      isLoading := false;
      error := None;
      data := Null;
      currencies := [];
    }

    method ToggleSidebar()
      modifies this
      ensures View() == SidebarToggled(old(View()))
    {
      isSidebarOpen := !isSidebarOpen;
    }

    method CloseSidebar()
      modifies this
      ensures View() == SidebarClosed(old(View()))
    {
      isSidebarOpen := false;
    }

    method OpenSidebar()
      modifies this
      ensures View() == SidebarOpened(old(View()))
    {
      isSidebarOpen := true;
    }

    /** The synchronous entry step of every asynchronous action. */
    method Begin()
      modifies this
      ensures View() == Begun(old(View()))
    {
      isLoading := true;
      error := None;
    }

    method SettleFetchData(outcome: Settled)
      modifies this
      ensures View() == DataSettled(old(View()), outcome)
    {
      match outcome {
        case Resolved(timestamp) =>
          data := FetchedRecord(timestamp);
        case Rejected(reason) =>
          error := Some(ErrorMessage(reason, "Unknown error"));
      }
      isLoading := false;
    }

    method FetchData(outcome: Settled)
      modifies this
      ensures View() == FetchedData(old(View()), outcome)
    {
      Begin();
      SettleFetchData(outcome);
    }

    method SettleSaveData(payload: Value, outcome: Settled) returns (rethrown: Option<Thrown>)
      modifies this
      ensures (View(), rethrown) == SaveSettled(old(View()), payload, outcome)
    {
      if InvalidPayload(payload) {
        var err := ErrorObject("Invalid payload");
        error := Some(ErrorMessage(err, "Save failed"));
        rethrown := Some(err);
      } else {
        match outcome {
          case Resolved(timestamp) =>
            data := Augmented(payload, timestamp);
            rethrown := None;
          case Rejected(reason) =>
            error := Some(ErrorMessage(reason, "Save failed"));
            rethrown := Some(reason);
        }
      }
      isLoading := false;
    }

    method SaveData(payload: Value, outcome: Settled) returns (rethrown: Option<Thrown>)
      modifies this
      ensures (View(), rethrown) == SavedData(old(View()), payload, outcome)
    {
      Begin();
      rethrown := SettleSaveData(payload, outcome);
    }

    method SettleFetchCurrencies(response: Response)
      modifies this
      ensures View() == CurrenciesSettled(old(View()), response)
    {
      match response {
        case NetworkFailure(reason) =>
          error := Some(ErrorMessage(reason, "Failed to fetch currencies"));
        case Received(status, body) =>
          if !IsOk(status) {
            error := Some(HttpErrorMessage(status));
          } else {
            match body {
              case Unreadable(reason) =>
                error := Some(ErrorMessage(reason, "Failed to fetch currencies"));
              case Tables(tables) =>
                currencies := FirstRates(tables);
            }
          }
      }
      isLoading := false;
    }

    method FetchCurrencies(response: Response)
      modifies this
      ensures View() == FetchedCurrencies(old(View()), response)
    {
      Begin();
      SettleFetchCurrencies(response);
    }

    method ResetData()
      modifies this
      ensures View() == Reset(old(View()))
    {
      data := Null;
      currencies := [];
      error := None;
      isLoading := false;
    }
  }
}
