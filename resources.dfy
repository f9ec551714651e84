/** The resource methods of the client: each is a fixed path template, a
    verb, optional query parameters and, for updates, a wrapped body, handed
    to the request primitive. The methods are the constructors of `Op`, each
    carrying the arguments its Python method takes. */
module Resources {
  import opened Results
  import opened JsonValues
  import opened ApiErrors
  import opened Pipeline

  /** The optional filters of the transaction listings. */
  datatype Filters = Filters(sinceDate: Option<string>, transactionType: Option<string>, lastKnowledge: Option<int>)

  /** One call of a resource method with its arguments. An absent optional
      argument is `None`; for the bulk transaction methods, whose arguments
      are tested for truthiness, Python's `None` is `JNull`. */
  datatype Op =
    | User
    | Budgets
    | Budget(budgetId: string, lastKnowledge: Option<int>)
    | BudgetSettings(budgetId: string)
    | Accounts(budgetId: string, lastKnowledge: Option<int>)
    | Account(budgetId: string, accountId: string)
    | Categories(budgetId: string, lastKnowledge: Option<int>)
    | Category(budgetId: string, categoryId: string)
    | CategoryMonth(budgetId: string, categoryId: string, month: string)
    | UpdateCategoryMonth(budgetId: string, categoryId: string, month: string, data: Json)
    | Payees(budgetId: string, lastKnowledge: Option<int>)
    | Payee(budgetId: string, payeeId: string)
    | PayeeLocations(budgetId: string)
    | PayeeLocation(budgetId: string, payeeLocationId: string)
    | LocationsPayee(budgetId: string, payeeId: string)
    | BudgetMonths(budgetId: string, lastKnowledge: Option<int>)
    | BudgetMonth(budgetId: string, month: string)
    | Transactions(budgetId: string, filters: Filters)
    | CreateTransactions(budgetId: string, transaction: Json, transactions: Json)
    | UpdateTransactions(budgetId: string, transaction: Json, transactions: Json)
    | Transaction(budgetId: string, transactionId: string)
    | UpdateTransaction(budgetId: string, transactionId: string, data: Json)
    | AccountTransactions(budgetId: string, accountId: string, filters: Filters)
    | CategoryTransactions(budgetId: string, categoryId: string, filters: Filters)
    | PayeeTransactions(budgetId: string, payeeId: string, filters: Filters)
    | ScheduledTransactions(budgetId: string)
    | ScheduledTransaction(budgetId: string, scheduledTransactionId: string)

  /** The arguments `_request` receives from a resource method. */
  datatype Call = Call(endpoint: string, verb: Verb, params: Option<map<string, Json>>, body: Option<Json>)

  // ---------------------------------------------------------------------
  // Paths

  /** The path of a call as its segments: the template's fixed words with the
      caller's identifiers substituted, unchecked. */
  function Segments(op: Op): (r: seq<string>)
    ensures |r| > 0
    ensures op.User? <==> r == ["user"]
    ensures op.Budgets? <==> r == ["budgets"]
    ensures !(op.User? || op.Budgets?) ==> |r| >= 2 && r[0] == "budgets" && r[1] == op.budgetId
  {
    match op
    case User => ["user"]
    case Budgets => ["budgets"]
    case Budget(b, _) => ["budgets", b]
    case BudgetSettings(b) => ["budgets", b, "settings"]
    case Accounts(b, _) => ["budgets", b, "accounts"]
    case Account(b, a) => ["budgets", b, "accounts", a]
    case Categories(b, _) => ["budgets", b, "categories"]
    case Category(b, c) => ["budgets", b, "categories", c]
    case CategoryMonth(b, c, m) => ["budgets", b, "months", m, "categories", c]
    case UpdateCategoryMonth(b, c, m, _) => ["budgets", b, "months", m, "categories", c]
    case Payees(b, _) => ["budgets", b, "payees"]
    case Payee(b, p) => ["budgets", b, "payees", p]
    case PayeeLocations(b) => ["budgets", b, "payee_locations"]
    case PayeeLocation(b, l) => ["budgets", b, "payee_locations", l]
    case LocationsPayee(b, p) => ["budgets", b, "payees", p, "payee_locations"]
    case BudgetMonths(b, _) => ["budgets", b, "months"]
    case BudgetMonth(b, m) => ["budgets", b, "months", m]
    case Transactions(b, _) => ["budgets", b, "transactions"]
    case CreateTransactions(b, _, _) => ["budgets", b, "transactions"]
    case UpdateTransactions(b, _, _) => ["budgets", b, "transactions"]
    case Transaction(b, t) => ["budgets", b, "transactions", t]
    case UpdateTransaction(b, t, _) => ["budgets", b, "transactions", t]
    case AccountTransactions(b, a, _) => ["budgets", b, "accounts", a, "transactions"]
    case CategoryTransactions(b, c, _) => ["budgets", b, "categories", c, "transactions"]
    case PayeeTransactions(b, p, _) => ["budgets", b, "payees", p, "transactions"]
    case ScheduledTransactions(b) => ["budgets", b, "scheduled_transactions"]
    case ScheduledTransaction(b, s) => ["budgets", b, "scheduled_transactions", s]
  }

  /** "/s1/s2/.../sn". */
  function JoinPath(segments: seq<string>): string
  {
    if segments == [] then "" else "/" + segments[0] + JoinPath(segments[1..])
  }

  /** The endpoint fragment a resource method passes to `_request`. */
  function Path(op: Op): (r: string)
    ensures |r| > |Segments(op)[0]| && r[0] == '/' && Segments(op)[0] <= r[1..]
  {
    var segments := Segments(op);
    assert JoinPath(segments)[1..] == segments[0] + JoinPath(segments[1..]);
    JoinPath(segments)
  }

  /** Python's `s.split('/')`. */
  function Split(s: string): (r: seq<string>)
    ensures |r| > 0
  {
    if s == [] then [""]
    else
      var rest := Split(s[1..]);
      if s[0] == '/' then [""] + rest else [[s[0]] + rest[0]] + rest[1..]
  }

  lemma SplitLeadingSlash(s: string)
    ensures Split("/" + s) == [""] + Split(s)
  {
  }

  lemma {:induction false} SplitAtSlash(a: string, b: string)
    requires '/' !in a
    ensures Split(a + b) == [a + Split(b)[0]] + Split(b)[1..]
  {
    if a == [] {
      assert a + b == b;
      assert a + Split(b)[0] == Split(b)[0];
      assert Split(b) == [Split(b)[0]] + Split(b)[1..];
    } else {
      assert a[0] in a;
      assert (a + b)[0] == a[0];
      assert (a + b)[1..] == a[1..] + b;
      SplitAtSlash(a[1..], b);
      assert [a[0]] + (a[1..] + Split(b)[0]) == a + Split(b)[0];
    }
  }

  /** Splitting "s1/s2/.../sn" at '/' gives the segments back when none holds a '/'. */
  lemma {:induction false} SplitJoined(segments: seq<string>)
    requires segments != []
    requires forall i :: 0 <= i < |segments| ==> '/' !in segments[i]
    ensures Split(segments[0] + JoinPath(segments[1..])) == segments
  {
    var rest := segments[1..];
    SplitAtSlash(segments[0], JoinPath(rest));
    if rest == [] {
      assert segments[0] + "" == segments[0];
    } else {
      assert segments[1..][1..] == rest[1..];
      SplitJoined(rest);
      assert JoinPath(rest) == "/" + (rest[0] + JoinPath(rest[1..]));
      SplitLeadingSlash(rest[0] + JoinPath(rest[1..]));
      assert Split(JoinPath(rest)) == [""] + rest;
      assert segments[0] + "" == segments[0];
      assert segments == [segments[0]] + rest;
    }
  }

  /** A path is its template with the identifiers substituted: as long as no
      identifier holds a '/', splitting the path recovers every segment. */
  lemma PathRoundTrip(op: Op)
    requires forall i :: 0 <= i < |Segments(op)| ==> '/' !in Segments(op)[i]
    ensures Split(Path(op)) == [""] + Segments(op)
  {
    var segments := Segments(op);
    SplitJoined(segments);
    assert Path(op) == "/" + (segments[0] + JoinPath(segments[1..]));
    SplitLeadingSlash(segments[0] + JoinPath(segments[1..]));
  }

  // ---------------------------------------------------------------------
  // Verbs and bodies

  function VerbOf(op: Op): (r: Verb)
    ensures r != GET <==> op.UpdateCategoryMonth? || op.CreateTransactions? || op.UpdateTransactions? || op.UpdateTransaction?
    ensures r == POST <==> op.CreateTransactions?
    ensures r == PUT <==> op.UpdateTransaction?
  {
    match op
    case UpdateCategoryMonth(_, _, _, _) => PATCH
    case CreateTransactions(_, _, _) => POST
    case UpdateTransactions(_, _, _) => PATCH
    case UpdateTransaction(_, _, _) => PUT
    case _ => GET
  }

  const MustSpecifyOne: string := "Must specify one of transaction or transactions."
  const OnlyOne: string := "Only one of transaction or transactions can be specified, not both."

  /** The argument checks and the body of `create_transactions` and
      `update_transactions` as written: the checks test truthiness, the
      wrapping tests `is not None`. */
  function BulkBodyAsWritten(transaction: Json, transactions: Json): (r: Result<Json, Failure>)
    ensures (!Truthy(transaction) && !Truthy(transactions)) <==> r == Err(UsageError(MustSpecifyOne))
    ensures (Truthy(transaction) && Truthy(transactions)) <==> r == Err(UsageError(OnlyOne))
    ensures r.Ok? <==> Truthy(transaction) != Truthy(transactions)
    ensures r.Ok? ==> r.value == if transaction != JNull then Wrap("transaction", transaction)
                                 else Wrap("transactions", transactions)
  {
    if !Truthy(transaction) && !Truthy(transactions) then Err(UsageError(MustSpecifyOne))
    else if Truthy(transaction) && Truthy(transactions) then Err(UsageError(OnlyOne))
    else if transaction != JNull then Ok(Wrap("transaction", transaction))
    else Ok(Wrap("transactions", transactions))
  }

  /** The same checks, wrapping the one argument that was specified. */
  function BulkBody(transaction: Json, transactions: Json): (r: Result<Json, Failure>)
    ensures r.Err? <==> Truthy(transaction) == Truthy(transactions)
    ensures r.Err? ==> r.error == UsageError(if Truthy(transaction) then OnlyOne else MustSpecifyOne)
    ensures r.Ok? && Truthy(transaction) ==> r.value == Wrap("transaction", transaction)
    ensures r.Ok? && Truthy(transactions) ==> r.value == Wrap("transactions", transactions)
  {
    if !Truthy(transaction) && !Truthy(transactions) then Err(UsageError(MustSpecifyOne))
    else if Truthy(transaction) && Truthy(transactions) then Err(UsageError(OnlyOne))
    else if Truthy(transaction) then Ok(Wrap("transaction", transaction))
    else Ok(Wrap("transactions", transactions))
  }

  /** An empty transaction dict beside a non-empty list passes both checks,
      and the code as written then sends the empty dict and drops the list. */
  lemma BulkBodyDropsTransactions(item: Json)
    ensures BulkBodyAsWritten(JObj(map[]), JArr([item])) == Ok(Wrap("transaction", JObj(map[])))
    ensures BulkBody(JObj(map[]), JArr([item])) == Ok(Wrap("transactions", JArr([item])))
  {
  }

  /** The two agree exactly when it is not the case that `transaction` is
      falsy but not None while `transactions` is truthy. */
  lemma BulkBodyAgreement(transaction: Json, transactions: Json)
    ensures BulkBodyAsWritten(transaction, transactions) == BulkBody(transaction, transactions)
        <==> !(transaction != JNull && !Truthy(transaction) && Truthy(transactions))
  {
  }

  /** The JSON body of a call as the code builds it, or the usage error that
      stops it. */
  function Body(op: Op): (r: Result<Option<Json>, Failure>)
    ensures r.Err? <==> (op.CreateTransactions? || op.UpdateTransactions?) && Truthy(op.transaction) == Truthy(op.transactions)
    ensures r.Err? ==> r.error == UsageError(if Truthy(op.transaction) then OnlyOne else MustSpecifyOne)
    ensures r.Ok? ==> (r.value.Some? <==> VerbOf(op) != GET)
    ensures r.Ok? && r.value.Some? ==> r.value.value.JObj? && |r.value.value.fields| == 1
    ensures r.Ok? && (op.CreateTransactions? || op.UpdateTransactions?) ==>
      r.value == Some(if op.transaction != JNull then Wrap("transaction", op.transaction)
                      else Wrap("transactions", op.transactions))
  {
    match op
    case UpdateCategoryMonth(_, _, _, data) => Ok(Some(Wrap("category", data)))
    case UpdateTransaction(_, _, data) => Ok(Some(Wrap("transaction", data)))
    case CreateTransactions(_, t, ts) =>
      (match BulkBodyAsWritten(t, ts) case Err(f) => Err(f) case Ok(b) => Ok(Some(b)))
    case UpdateTransactions(_, t, ts) =>
      (match BulkBodyAsWritten(t, ts) case Err(f) => Err(f) case Ok(b) => Ok(Some(b)))
    case _ => Ok(None)
  }

  // ---------------------------------------------------------------------
  // Query parameters

  const LastKnowledgeKey: string := "last_knowledge_of_server"
  const SinceDateKey: string := "since_date"
  const TypeKey: string := "type"

  /** The parameters of `budget`, `accounts`, `categories` and
      `budget_months`: the cursor is sent when it is not None. */
  function KnowledgeParams(lastKnowledge: Option<int>): (r: map<string, Json>)
    ensures r.Keys <= {LastKnowledgeKey}
    ensures LastKnowledgeKey in r <==> lastKnowledge.Some?
    ensures LastKnowledgeKey in r ==> r[LastKnowledgeKey] == JNum(lastKnowledge.value)
  {
    var params: map<string, Json> := map[];
    if lastKnowledge.Some? then params[LastKnowledgeKey := JNum(lastKnowledge.value)] else params
  }

  /** The parameters of `payees`: the cursor is sent when it is truthy, so a
      cursor of 0 is left out. */
  function PayeesParams(lastKnowledge: Option<int>): (r: map<string, Json>)
    ensures r.Keys <= {LastKnowledgeKey}
    ensures LastKnowledgeKey in r <==> lastKnowledge.Some? && lastKnowledge.value != 0
    ensures LastKnowledgeKey in r ==> r[LastKnowledgeKey] == JNum(lastKnowledge.value)
  {
    var params: map<string, Json> := map[];
    if lastKnowledge.Some? && Truthy(JNum(lastKnowledge.value))
    then params[LastKnowledgeKey := JNum(lastKnowledge.value)]
    else params
  }

  /** The parameters of the transaction listings: each filter is sent when it
      is not None, under its own name, and nothing else is sent. */
  function FilterParams(f: Filters): (r: map<string, Json>)
    ensures r.Keys <= {LastKnowledgeKey, SinceDateKey, TypeKey}
    ensures LastKnowledgeKey in r <==> f.lastKnowledge.Some?
    ensures SinceDateKey in r <==> f.sinceDate.Some?
    ensures TypeKey in r <==> f.transactionType.Some?
    ensures LastKnowledgeKey in r ==> r[LastKnowledgeKey] == JNum(f.lastKnowledge.value)
    ensures SinceDateKey in r ==> r[SinceDateKey] == JStr(f.sinceDate.value)
    ensures TypeKey in r ==> r[TypeKey] == JStr(f.transactionType.value)
  {
    var empty: map<string, Json> := map[];
    var withKnowledge := if f.lastKnowledge.Some? then empty[LastKnowledgeKey := JNum(f.lastKnowledge.value)] else empty;
    var withSince := if f.sinceDate.Some? then withKnowledge[SinceDateKey := JStr(f.sinceDate.value)] else withKnowledge;
    if f.transactionType.Some? then withSince[TypeKey := JStr(f.transactionType.value)] else withSince
  }

  /** Reads the filters back from the parameters a listing sent. */
  function FiltersOf(params: map<string, Json>): Filters {
    Filters(
      if SinceDateKey in params && params[SinceDateKey].JStr? then Some(params[SinceDateKey].s) else None,
      if TypeKey in params && params[TypeKey].JStr? then Some(params[TypeKey].s) else None,
      if LastKnowledgeKey in params && params[LastKnowledgeKey].JNum? then Some(params[LastKnowledgeKey].n) else None)
  }

  /** The listing parameters lose nothing: the filters can be read back. */
  lemma FilterParamsRoundTrip(f: Filters)
    ensures FiltersOf(FilterParams(f)) == f
  {
  }

  /** A cursor of 0 is sent by `budget` but dropped by `payees`. */
  lemma PayeesDropZeroCursor()
    ensures PayeesParams(Some(0)) == PayeesParams(None) == map[]
    ensures KnowledgeParams(Some(0)) == map[LastKnowledgeKey := JNum(0)]
  {
  }

  /** The `params` argument a resource method hands to `_request`: a possibly
      empty dict for the methods with optional filters, None for the rest. */
  function Params(op: Op): (r: Option<map<string, Json>>)
    ensures r.Some? <==> op.Budget? || op.Accounts? || op.Categories? || op.BudgetMonths? || op.Payees?
                         || op.Transactions? || op.AccountTransactions? || op.CategoryTransactions? || op.PayeeTransactions?
    ensures r.Some? ==> r.value.Keys <= {LastKnowledgeKey, SinceDateKey, TypeKey}
    ensures (op.Budget? || op.Accounts? || op.Categories? || op.BudgetMonths?) ==>
      (LastKnowledgeKey in r.value <==> op.lastKnowledge.Some?) && r.value == KnowledgeParams(op.lastKnowledge)
    ensures op.Payees? ==>
      (LastKnowledgeKey in r.value <==> op.lastKnowledge.Some? && op.lastKnowledge.value != 0)
      && r.value == PayeesParams(op.lastKnowledge)
    ensures (op.Transactions? || op.AccountTransactions? || op.CategoryTransactions? || op.PayeeTransactions?) ==>
      r.value == FilterParams(op.filters)
    ensures (op.Transactions? || op.AccountTransactions? || op.CategoryTransactions? || op.PayeeTransactions?) ==>
      FiltersOf(r.value) == op.filters
  {
    match op
    case Budget(_, lk) => Some(KnowledgeParams(lk))
    case Accounts(_, lk) => Some(KnowledgeParams(lk))
    case Categories(_, lk) => Some(KnowledgeParams(lk))
    case BudgetMonths(_, lk) => Some(KnowledgeParams(lk))
    case Payees(_, lk) => Some(PayeesParams(lk))
    case Transactions(_, f) => FilterParamsRoundTrip(f); Some(FilterParams(f))
    case AccountTransactions(_, _, f) => FilterParamsRoundTrip(f); Some(FilterParams(f))
    case CategoryTransactions(_, _, f) => FilterParamsRoundTrip(f); Some(FilterParams(f))
    case PayeeTransactions(_, _, f) => FilterParamsRoundTrip(f); Some(FilterParams(f))
    case _ => None
  }

  // ---------------------------------------------------------------------
  // The whole call

  /** What a resource method passes to `_request`, or the usage error it
      raises before any request. */
  function Plan(op: Op): (r: Result<Call, Failure>)
    ensures r.Err? <==> (op.CreateTransactions? || op.UpdateTransactions?) && Truthy(op.transaction) == Truthy(op.transactions)
    ensures r.Err? ==> r.error.UsageError?
    ensures r.Ok? ==> r.value.endpoint == Path(op) && r.value.verb == VerbOf(op) && r.value.params == Params(op)
    ensures r.Ok? ==> (r.value.body.Some? <==> r.value.verb != GET)
    ensures r.Ok? && (op.CreateTransactions? || op.UpdateTransactions?) ==>
      r.value.body == Some(if op.transaction != JNull then Wrap("transaction", op.transaction)
                           else Wrap("transactions", op.transactions))
  {
    match Body(op)
    case Err(f) => Err(f)
    case Ok(body) => Ok(Call(Path(op), VerbOf(op), Params(op), body))
  }

  /** `update_category_month` sends its data wrapped under `category` with
      PATCH, to the path the month's category is read from. */
  lemma UpdateCategoryMonthWraps(b: string, c: string, m: string, data: Json)
    ensures Plan(UpdateCategoryMonth(b, c, m, data))
         == Ok(Call(Path(CategoryMonth(b, c, m)), PATCH, None, Some(JObj(map["category" := data]))))
  {
  }

  /** `update_transaction` sends its data wrapped under `transaction` with
      PUT, to the path the transaction is read from. */
  lemma UpdateTransactionWraps(b: string, t: string, data: Json)
    ensures Plan(UpdateTransaction(b, t, data))
         == Ok(Call(Path(Transaction(b, t)), PUT, None, Some(JObj(map["transaction" := data]))))
  {
  }

  /** Bulk creation (POST) and bulk update (PATCH) address the same endpoint
      as the transaction listing; the body is the one the code builds: the
      `transaction` argument unless it is None, else `transactions`. */
  lemma BulkCallsShareTheListingEndpoint(b: string, t: Json, ts: Json, f: Filters)
    requires Truthy(t) != Truthy(ts)
    ensures Plan(CreateTransactions(b, t, ts)) == Ok(Call(Path(Transactions(b, f)), POST, None, Some(BulkBodyAsWritten(t, ts).value)))
    ensures Plan(UpdateTransactions(b, t, ts)) == Ok(Call(Path(Transactions(b, f)), PATCH, None, Some(BulkBodyAsWritten(t, ts).value)))
  {
  }

  /** The transaction endpoint of a budget is "/budgets/<budget id>/transactions". */
  lemma TransactionsJoin(b: string)
    ensures JoinPath(["budgets", b, "transactions"]) == "/budgets/" + b + "/transactions"
  {
    JoinPathCons("transactions", []);
    assert ["transactions"] + [] == ["transactions"];
    JoinPathCons(b, ["transactions"]);
    JoinPathCons("budgets", [b, "transactions"]);
  }

  lemma TransactionsPath(b: string, f: Filters)
    ensures Path(Transactions(b, f)) == "/budgets/" + b + "/transactions"
  {
    TransactionsJoin(b);
    assert Segments(Transactions(b, f)) == ["budgets", b, "transactions"];
  }

  /** Without any optional argument a listing sends an empty parameter dict,
      so no query string. */
  lemma NoFiltersNoQuery(op: Op)
    requires Params(op).Some?
    requires (op.Transactions? || op.AccountTransactions? || op.CategoryTransactions? || op.PayeeTransactions?)
             ==> op.filters == Filters(None, None, None)
    requires !(op.Transactions? || op.AccountTransactions? || op.CategoryTransactions? || op.PayeeTransactions?)
             ==> op.lastKnowledge == None
    ensures Params(op) == Some(map[])
  {
  }

  lemma JoinPathCons(segment: string, rest: seq<string>)
    ensures JoinPath([segment] + rest) == "/" + segment + JoinPath(rest)
  {
  }

  lemma CategoryMonthJoin(b: string, c: string, m: string)
    ensures JoinPath(["budgets", b, "months", m, "categories", c]) == "/budgets/" + b + "/months/" + m + "/categories/" + c
  {
    var t1 := JoinPath([c]);
    assert t1 == "/" + c by { JoinPathCons(c, []); assert [c] + [] == [c]; }
    var t2 := JoinPath(["categories", c]);
    assert t2 == "/categories" + t1 by { JoinPathCons("categories", [c]); }
    var t3 := JoinPath([m, "categories", c]);
    assert t3 == "/" + m + t2 by { JoinPathCons(m, ["categories", c]); }
    var t4 := JoinPath(["months", m, "categories", c]);
    assert t4 == "/months" + t3 by { JoinPathCons("months", [m, "categories", c]); }
    var t5 := JoinPath([b, "months", m, "categories", c]);
    assert t5 == "/" + b + t4 by { JoinPathCons(b, ["months", m, "categories", c]); }
    var t6 := JoinPath(["budgets", b, "months", m, "categories", c]);
    assert t6 == "/budgets" + t5 by { JoinPathCons("budgets", [b, "months", m, "categories", c]); }
  }

  /** The category of one month, read and updated alike, lives at
      "/budgets/<budget id>/months/<month>/categories/<category id>". */
  lemma CategoryMonthPath(b: string, c: string, m: string, data: Json)
    ensures Path(CategoryMonth(b, c, m)) == "/budgets/" + b + "/months/" + m + "/categories/" + c
    ensures Path(UpdateCategoryMonth(b, c, m, data)) == Path(CategoryMonth(b, c, m))
  {
    CategoryMonthJoin(b, c, m);
    assert Segments(CategoryMonth(b, c, m)) == ["budgets", b, "months", m, "categories", c];
  }
}
