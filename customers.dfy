/**
 The `ensureCustomer` helper: find-or-create of a customer record against the
 payment provider's customer API, and the search expression it sends when a
 lookup by id does not succeed.

 The provider is an oracle: each of its four operations is a function from the
 call's arguments to what the call does (returns or throws). `ensureCustomer`
 makes each kind of call at most once, so answers that depend only on the
 arguments lose no generality for one run. A run returns its outcome together
 with the list of provider calls it made, in order.
 */
module Customers {
  import opened Js

  /** A customer record as the provider returns it; `deleted` is set on the
      stub the provider returns for a deleted customer. */
  datatype Customer = Customer(id: string, deleted: bool, metadata: Value)

  /** The creation parameters. `text` holds the string-valued fields (the only
      ones a search may name; a field missing from it is `undefined`);
      `metadata` is whatever the caller put there, `undefined` when absent. */
  datatype CustomerCreateParams = CustomerCreateParams(text: map<string, string>, metadata: Value)

  /** The optional search directive: a field name and optional metadata pairs,
      listed in the order `Object.keys` yields them. */
  datatype CustomerQuery = CustomerQuery(field: string, metadata: Option<seq<(string, string)>>)

  /** The customer operations of the provider client. */
  datatype Provider = Provider(
    retrieve: string -> Outcome<Customer>,
    update: (string, Value) -> Outcome<Customer>,
    search: string -> Outcome<seq<Customer>>,
    create: CustomerCreateParams -> Outcome<Customer>)

  /** One provider call; `Update(id, m)` sends the payload `{metadata: m}`. */
  datatype Call =
    | Retrieve(id: string)
    | Update(id: string, metadata: Value)
    | Search(query: string)
    | Create(params: CustomerCreateParams)

  /** What a call of `ensureCustomer` (or a part of it) did. */
  datatype Run = Run(outcome: Outcome<Customer>, calls: seq<Call>)

  // ----------------------------------------------------------------------
  // The search expression

  /** `String(params[field])`: the field's text, or `"undefined"` when unset. */
  function FieldText(params: CustomerCreateParams, field: string): (t: string)
    ensures field in params.text ==> t == params.text[field]
    ensures field !in params.text ==> t == "undefined"
  {
    if field in params.text then params.text[field] else "undefined"
  }

  /** The double-quote character, as a one-character string. */
  const Quote: string := "\""

  /** `field~"text"` */
  function FieldClause(field: string, text: string): string
  {
    field + "~" + Quote + text + Quote
  }

  /** ` AND metadata["key"]:"value"`, with nothing escaped. */
  function MetadataClause(key: string, value: string): string
  {
    " AND metadata[" + Quote + key + Quote + "]:" + Quote + value + Quote
  }

  /** One metadata clause per entry, in the entries' order. */
  function MetadataClauses(entries: seq<(string, string)>): string
  {
    if entries == [] then ""
    else MetadataClause(entries[0].0, entries[0].1) + MetadataClauses(entries[1..])
  }

  /** The search expression `ensureCustomer` sends for a query. */
  function SearchExpression(params: CustomerCreateParams, q: CustomerQuery): (expr: string)
    ensures var head := FieldClause(q.field, FieldText(params, q.field));
            |head| <= |expr| && expr[..|head|] == head
  {
    FieldClause(q.field, FieldText(params, q.field))
    + (if q.metadata.Some? then MetadataClauses(q.metadata.value) else "")
  }

  /** Appending an entry appends exactly its clause, at the end. */
  lemma {:induction false} MetadataClausesSnoc(entries: seq<(string, string)>, key: string, value: string)
    ensures MetadataClauses(entries + [(key, value)]) == MetadataClauses(entries) + MetadataClause(key, value)
  {
    if entries == [] {
      assert entries + [(key, value)] == [(key, value)];
    } else {
      assert (entries + [(key, value)])[1..] == entries[1..] + [(key, value)];
      MetadataClausesSnoc(entries[1..], key, value);
    }
  }

  /** The plugin's loop: start from the field clause and append one clause per
      metadata key, in key order. */
  method BuildSearchQuery(params: CustomerCreateParams, q: CustomerQuery) returns (query: string)
    ensures query == SearchExpression(params, q)
  {
    var head := FieldClause(q.field, FieldText(params, q.field));
    query := head;
    if q.metadata.Some? {
      var entries := q.metadata.value;
      for i := 0 to |entries|
        invariant query == head + MetadataClauses(entries[..i])
      {
        assert entries[..i + 1] == entries[..i] + [entries[i]];
        MetadataClausesSnoc(entries[..i], entries[i].0, entries[i].1);
        query := query + MetadataClause(entries[i].0, entries[i].1);
      }
      assert entries[..|entries|] == entries;
    } else {
      assert query == head + "";
    }
  }

  /** Each key added to the query's metadata adds its clause at the end of the
      expression: clauses follow key order. */
  lemma SearchExpressionAppendsInKeyOrder(params: CustomerCreateParams, field: string,
                                          entries: seq<(string, string)>, key: string, value: string)
    ensures SearchExpression(params, CustomerQuery(field, Some(entries + [(key, value)])))
         == SearchExpression(params, CustomerQuery(field, Some(entries))) + MetadataClause(key, value)
  {
    MetadataClausesSnoc(entries, key, value);
  }

  /** Without a metadata object only the field clause is sent, and a field the
      parameters do not set is rendered as the text `undefined`. */
  lemma SearchExpressionWithoutMetadata(params: CustomerCreateParams, field: string)
    ensures SearchExpression(params, CustomerQuery(field, None)) == FieldClause(field, FieldText(params, field))
    ensures field !in params.text ==>
              SearchExpression(params, CustomerQuery(field, None)) == field + "~" + Quote + "undefined" + Quote
  {
  }

  /** The number of quote characters in `s`. */
  function Quotes(s: string): nat
  {
    multiset(s)['"']
  }

  /** A metadata clause has four quote characters of its own. */
  lemma ClauseQuotes(key: string, value: string)
    ensures Quotes(MetadataClause(key, value)) == 4 + Quotes(key) + Quotes(value)
  {
    assert '"' !in " AND metadata[";
  }

  /** The number of quote characters inside the keys and values. */
  function QuotesInEntries(entries: seq<(string, string)>): nat
  {
    if entries == [] then 0
    else Quotes(entries[0].0) + Quotes(entries[0].1) + QuotesInEntries(entries[1..])
  }

  /** The quote characters in the metadata clauses: four per clause, plus those
      inside the keys and values. */
  lemma {:induction false} MetadataClausesQuotes(entries: seq<(string, string)>)
    ensures Quotes(MetadataClauses(entries)) == 4 * |entries| + QuotesInEntries(entries)
  {
    if entries != [] {
      ClauseQuotes(entries[0].0, entries[0].1);
      MetadataClausesQuotes(entries[1..]);
    }
  }

  /** When the field name, its text and every key and value are free of quote
      characters, the expression has two quotes for the field clause and four
      per metadata key, so it has exactly as many AND clauses as keys. */
  lemma ClauseCountMatchesKeys(params: CustomerCreateParams, field: string, entries: seq<(string, string)>)
    requires Quotes(field) == 0 && Quotes(FieldText(params, field)) == 0
    requires QuotesInEntries(entries) == 0
    ensures Quotes(SearchExpression(params, CustomerQuery(field, Some(entries)))) == 2 + 4 * |entries|
  {
    MetadataClausesQuotes(entries);
  }

  /** Values are not escaped: a value that closes its own quote can forge a
      second clause, so one key sends the same expression as two. */
  lemma UnescapedValuesCollide(params: CustomerCreateParams, field: string,
                               key1: string, value1: string, key2: string, value2: string)
    ensures var forged := value1 + Quote + " AND metadata[" + Quote + key2 + Quote + "]:" + Quote + value2;
            (SearchExpression(params, CustomerQuery(field, Some([(key1, forged)])))
             == SearchExpression(params, CustomerQuery(field, Some([(key1, value1), (key2, value2)]))))
  {
    var forged := value1 + Quote + " AND metadata[" + Quote + key2 + Quote + "]:" + Quote + value2;
    var honest := [(key1, value1), (key2, value2)];
    assert honest[1..] == [(key2, value2)];
    assert honest[1..][1..] == [];
    assert [(key1, forged)][1..] == [];
    assert MetadataClause(key1, forged) == MetadataClause(key1, value1) + MetadataClause(key2, value2);
    assert MetadataClauses([(key1, forged)]) == MetadataClause(key1, forged) + "";
    assert MetadataClauses(honest[1..]) == MetadataClause(key2, value2) + "";
  }

  // ----------------------------------------------------------------------
  // The decision tree

  /** JavaScript's `typeof v === 'object'`, which holds for `null` too. */
  predicate IsObjectType(v: Value)
  {
    TypeOf(v) == "object"
  }

  /** The message of the error thrown for a deleted customer. */
  function DeletedMessage(customerId: string): (m: string)
    ensures Contains(m, customerId)
  {
    ContainsInfix("Customer - ", customerId, " was marked as deleted.");
    "Customer - " + customerId + " was marked as deleted."
  }

  /** A single `create(params)` call. */
  function CreateCustomer(p: Provider, params: CustomerCreateParams): Run
  {
    Run(p.create(params), [Create(params)])
  }

  /** The `try` block: retrieve by id, reject a deleted record, and replace
      the metadata when the parameters carry a metadata object. */
  function TryExisting(p: Provider, customerId: string, params: CustomerCreateParams): (r: Run)
    ensures r.calls == [Retrieve(customerId)]
         || r.calls == [Retrieve(customerId), Update(customerId, params.metadata)]
    ensures |r.calls| == 2
        <==> (p.retrieve(customerId).Returned? && !p.retrieve(customerId).value.deleted
              && IsObjectType(params.metadata))
    ensures r.outcome.Returned? ==> p.retrieve(customerId).Returned? && !p.retrieve(customerId).value.deleted
  {
    match p.retrieve(customerId)
    case Threw(e) => Run(Threw(e), [Retrieve(customerId)])
    case Returned(c) =>
      if c.deleted then
        Run(Threw(Error(DeletedMessage(customerId))), [Retrieve(customerId)])
      else if IsObjectType(params.metadata) then
        Run(p.update(customerId, params.metadata), [Retrieve(customerId), Update(customerId, params.metadata)])
      else
        Run(Returned(c), [Retrieve(customerId)])
  }

  /** The `catch` block: search when a query is given, else create; create
      when the search finds nothing. Nothing here is caught. */
  function Fallback(p: Provider, params: CustomerCreateParams, query: Option<CustomerQuery>): (r: Run)
    ensures query.None? ==> r.calls == [Create(params)]
    ensures query.Some? ==> 1 <= |r.calls| <= 2 && r.calls[0] == Search(SearchExpression(params, query.value))
    ensures |r.calls| == 2 ==> r.calls[1] == Create(params)
    ensures r.outcome.Threw? ==> r.calls != [] && ThrownBy(p, r.calls[|r.calls| - 1]) == Some(r.outcome.error)
  {
    match query
    case None => CreateCustomer(p, params)
    case Some(q) =>
      var expr := SearchExpression(params, q);
      match p.search(expr)
      case Threw(e) => Run(Threw(e), [Search(expr)])
      case Returned(data) =>
        if |data| > 0 then Run(Returned(data[0]), [Search(expr)])
        else Run(p.create(params), [Search(expr), Create(params)])
  }

  /** `ensureCustomer(customerId, params, query)`. */
  function EnsureCustomer(p: Provider, customerId: Value, params: CustomerCreateParams,
                          query: Option<CustomerQuery>): (r: Run)
    ensures 1 <= |r.calls| <= 4
    ensures r.calls[0] == if customerId.Str? then Retrieve(customerId.s) else Create(params)
  {
    if !customerId.Str? then CreateCustomer(p, params)
    else
      var attempt := TryExisting(p, customerId.s, params);
      if attempt.outcome.Returned? then attempt
      else
        var fallback := Fallback(p, params, query);
        Run(fallback.outcome, attempt.calls + fallback.calls)
  }

  // ----------------------------------------------------------------------
  // Properties of the decision tree

  /** Without a string id there is exactly one call, `create(params)`, and its
      outcome is the result. */
  lemma NoCustomerIdOnlyCreates(p: Provider, customerId: Value, params: CustomerCreateParams,
                                query: Option<CustomerQuery>)
    requires !customerId.Str?
    ensures EnsureCustomer(p, customerId, params, query) == Run(p.create(params), [Create(params)])
  {
  }

  /** A live record and a metadata object (`null` included): retrieve, then
      an update that sends exactly `{metadata: params.metadata}`, whatever the
      record held, and the updated record is the result. */
  lemma LiveCustomerMetadataReplaced(p: Provider, customerId: string, params: CustomerCreateParams,
                                     query: Option<CustomerQuery>, found: Customer, updated: Customer)
    requires p.retrieve(customerId) == Returned(found) && !found.deleted
    requires IsObjectType(params.metadata)
    requires p.update(customerId, params.metadata) == Returned(updated)
    ensures EnsureCustomer(p, Str(customerId), params, query)
         == Run(Returned(updated), [Retrieve(customerId), Update(customerId, params.metadata)])
  {
  }

  /** A live record and no metadata object: the retrieved record itself is the
      result, and retrieve is the only call. */
  lemma LiveCustomerReturnedUnchanged(p: Provider, customerId: string, params: CustomerCreateParams,
                                      query: Option<CustomerQuery>, found: Customer)
    requires p.retrieve(customerId) == Returned(found) && !found.deleted
    requires !IsObjectType(params.metadata)
    ensures EnsureCustomer(p, Str(customerId), params, query) == Run(Returned(found), [Retrieve(customerId)])
  {
  }

  /** The `try` block fails exactly when retrieve throws, the record is
      deleted, or the metadata update throws. */
  lemma TryExistingFailures(p: Provider, customerId: string, params: CustomerCreateParams)
    ensures TryExisting(p, customerId, params).outcome.Threw?
        <==> (p.retrieve(customerId).Threw?
              || p.retrieve(customerId).value.deleted
              || (IsObjectType(params.metadata) && p.update(customerId, params.metadata).Threw?))
  {
  }

  /** Every failure inside the `try` block is caught: the caller sees exactly
      what the fallback does, whatever the error was, after the calls the
      `try` block made. */
  lemma TryFailureIsSwallowed(p: Provider, customerId: string, params: CustomerCreateParams,
                              query: Option<CustomerQuery>)
    requires TryExisting(p, customerId, params).outcome.Threw?
    ensures EnsureCustomer(p, Str(customerId), params, query).outcome == Fallback(p, params, query).outcome
    ensures EnsureCustomer(p, Str(customerId), params, query).calls
         == TryExisting(p, customerId, params).calls + Fallback(p, params, query).calls
  {
  }

  /** Two providers that differ only in how retrieve and update behave, both
      making the `try` block fail, lead to the same outcome: no error from the
      `try` block reaches the caller. */
  lemma TryErrorNeverObservable(p1: Provider, p2: Provider, customerId: string, params: CustomerCreateParams,
                                query: Option<CustomerQuery>)
    requires p1.search == p2.search && p1.create == p2.create
    requires TryExisting(p1, customerId, params).outcome.Threw?
    requires TryExisting(p2, customerId, params).outcome.Threw?
    ensures EnsureCustomer(p1, Str(customerId), params, query).outcome
         == EnsureCustomer(p2, Str(customerId), params, query).outcome
  {
  }

  /** A deleted record makes the `try` block throw an error that names the id,
      but the `catch` swallows it: the run goes on to search or create. */
  lemma DeletedCustomerFallsBack(p: Provider, customerId: string, params: CustomerCreateParams,
                                 query: Option<CustomerQuery>, found: Customer)
    requires p.retrieve(customerId) == Returned(found) && found.deleted
    ensures TryExisting(p, customerId, params).outcome == Threw(Error(DeletedMessage(customerId)))
    ensures Contains(DeletedMessage(customerId), customerId)
    ensures EnsureCustomer(p, Str(customerId), params, query)
         == Run(Fallback(p, params, query).outcome, [Retrieve(customerId)] + Fallback(p, params, query).calls)
  {
  }

  /** The fallback without a query: exactly one create and no search. */
  lemma FallbackWithoutQueryCreates(p: Provider, params: CustomerCreateParams)
    ensures Fallback(p, params, None) == Run(p.create(params), [Create(params)])
  {
  }

  /** The fallback with a query: exactly one search with the query's
      expression; the first match wins with no create, an empty result leads
      to exactly one create, and a failed search propagates. */
  lemma FallbackWithQuery(p: Provider, params: CustomerCreateParams, q: CustomerQuery)
    ensures var expr := SearchExpression(params, q);
            var r := Fallback(p, params, Some(q));
            match p.search(expr)
            case Threw(e) => r == Run(Threw(e), [Search(expr)])
            case Returned(data) =>
              if data != [] then r == Run(Returned(data[0]), [Search(expr)])
              else r == Run(p.create(params), [Search(expr), Create(params)])
  {
  }

  // ----------------------------------------------------------------------
  // Call counts and the origin of errors

  datatype CallKind = RetrieveCall | UpdateCall | SearchCall | CreateCall

  function KindOf(c: Call): CallKind
  {
    match c
    case Retrieve(_) => RetrieveCall
    case Update(_, _) => UpdateCall
    case Search(_) => SearchCall
    case Create(_) => CreateCall
  }

  /** How many of the calls are of the given kind. */
  function Tally(calls: seq<Call>, kind: CallKind): (n: nat)
    ensures n <= |calls|
  {
    if calls == [] then 0
    else (if KindOf(calls[0]) == kind then 1 else 0) + Tally(calls[1..], kind)
  }

  lemma {:induction false} TallyAppend(a: seq<Call>, b: seq<Call>, kind: CallKind)
    ensures Tally(a + b, kind) == Tally(a, kind) + Tally(b, kind)
  {
    if a == [] {
      assert a + b == b;
    } else {
      assert (a + b)[1..] == a[1..] + b;
      TallyAppend(a[1..], b, kind);
    }
  }

  /** The run reaches the `catch` block. */
  predicate ReachesFallback(p: Provider, customerId: Value, params: CustomerCreateParams)
  {
    customerId.Str? && TryExisting(p, customerId.s, params).outcome.Threw?
  }

  /** How many calls of each kind a run makes, in terms of the provider's
      answers: retrieve once per string id, update only for a live record and
      a metadata object, search only in the fallback with a query, and create
      only without an id or in a fallback that finds nothing. */
  lemma CallTallies(p: Provider, customerId: Value, params: CustomerCreateParams, query: Option<CustomerQuery>)
    ensures var calls := EnsureCustomer(p, customerId, params, query).calls;
            && Tally(calls, RetrieveCall) == (if customerId.Str? then 1 else 0)
            && Tally(calls, UpdateCall)
               == (if customerId.Str? && p.retrieve(customerId.s).Returned?
                      && !p.retrieve(customerId.s).value.deleted && IsObjectType(params.metadata)
                   then 1 else 0)
            && Tally(calls, SearchCall)
               == (if ReachesFallback(p, customerId, params) && query.Some? then 1 else 0)
            && Tally(calls, CreateCall)
               == (if !customerId.Str?
                      || (ReachesFallback(p, customerId, params)
                          && (query.None? || p.search(SearchExpression(params, query.value)) == Returned([])))
                   then 1 else 0)
  {
    if customerId.Str? {
      var id := customerId.s;
      var attempt := TryExisting(p, id, params);
      TryExistingTallies(p, id, params);
      if attempt.outcome.Threw? {
        var fallback := Fallback(p, params, query);
        FallbackTallies(p, params, query);
        forall kind: CallKind
          ensures Tally(attempt.calls + fallback.calls, kind) == Tally(attempt.calls, kind) + Tally(fallback.calls, kind)
        {
          TallyAppend(attempt.calls, fallback.calls, kind);
        }
      }
    }
  }

  /** The calls of the `try` block, by kind. */
  lemma TryExistingTallies(p: Provider, customerId: string, params: CustomerCreateParams)
    ensures var calls := TryExisting(p, customerId, params).calls;
            && Tally(calls, RetrieveCall) == 1
            && Tally(calls, UpdateCall)
               == (if p.retrieve(customerId).Returned? && !p.retrieve(customerId).value.deleted
                      && IsObjectType(params.metadata) then 1 else 0)
            && Tally(calls, SearchCall) == 0
            && Tally(calls, CreateCall) == 0
  {
    var calls := TryExisting(p, customerId, params).calls;
    if |calls| == 2 {
      assert calls[1..] == [Update(customerId, params.metadata)];
    }
  }

  /** The calls of the `catch` block, by kind. */
  lemma FallbackTallies(p: Provider, params: CustomerCreateParams, query: Option<CustomerQuery>)
    ensures var calls := Fallback(p, params, query).calls;
            && Tally(calls, RetrieveCall) == 0
            && Tally(calls, UpdateCall) == 0
            && Tally(calls, SearchCall) == (if query.Some? then 1 else 0)
            && Tally(calls, CreateCall)
               == (if query.None? || p.search(SearchExpression(params, query.value)) == Returned([]) then 1 else 0)
  {
    var calls := Fallback(p, params, query).calls;
    if |calls| == 2 {
      assert calls[1..] == [Create(params)];
    }
  }

  /** The error a call throws, if it throws. */
  function ThrownBy(p: Provider, c: Call): Option<Error>
  {
    match c
    case Retrieve(id) => if p.retrieve(id).Threw? then Some(p.retrieve(id).error) else None
    case Update(id, m) => if p.update(id, m).Threw? then Some(p.update(id, m).error) else None
    case Search(expr) => if p.search(expr).Threw? then Some(p.search(expr).error) else None
    case Create(ps) => if p.create(ps).Threw? then Some(p.create(ps).error) else None
  }

  /** Every error the caller sees is the one thrown by the run's last call,
      and that call is a search or a create: errors of these two propagate,
      errors of retrieve and update never do. */
  lemma ErrorsComeFromSearchOrCreate(p: Provider, customerId: Value, params: CustomerCreateParams,
                                     query: Option<CustomerQuery>)
    ensures var r := EnsureCustomer(p, customerId, params, query);
            r.outcome.Threw? ==>
              && r.calls != []
              && KindOf(r.calls[|r.calls| - 1]) in {SearchCall, CreateCall}
              && ThrownBy(p, r.calls[|r.calls| - 1]) == Some(r.outcome.error)
  {
  }
}
