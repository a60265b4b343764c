/** Model failures, and how outer scopes complete what the failure recorded. */
module ModelErrors {
  import opened Wrappers

  datatype Kind =
    | InvalidRequest
    | Authentication
    | ContextOverflow
    | ContinuationGone
    | Transport
    | ProviderRejection

  /** What a failure is evidence about beyond its request. */
  datatype Scope = ModelScope | RouteScope

  /** The optional fields this code carries and never reads. */
  datatype Field =
    | PartialText
    | Usage
    | RequestId
    | ResponseId
    | ModelName
    | RetryAfterMs
    | Quota
    | Operation
    | Cause

  /** What may be stated of a failure; a field not in the map is undefined. */
  datatype Facts = Facts(status: Option<int>, scope: Option<Scope>, carried: map<Field, string>)

  datatype ModelError = ModelError(kind: Kind, message: string, retryable: bool, facts: Facts)

  /** What a scope knows of a failure; any field may be left out. */
  datatype Known = Known(kind: Option<Kind>, message: Option<string>, retryable: Option<bool>, facts: Facts)

  predicate IsRetryableStatus(status: int) {
    status >= 500 || status == 408 || status == 409 || status == 429
  }

  predicate KnownRetryable(status: Option<int>) {
    status.Some? && IsRetryableStatus(status.value)
  }

  predicate RetryableByDefault(kind: Kind, status: Option<int>) {
    match kind
    case Transport => true
    case ProviderRejection => status.None? || IsRetryableStatus(status.value)
    case _ => false
  }

  /** An unstated scope is the route's for a retryable status. */
  function Scoped(facts: Facts): Facts {
    if facts.scope.None? && KnownRetryable(facts.status) then facts.(scope := Some(RouteScope)) else facts
  }

  function Construct(kind: Kind, message: string, retryable: Option<bool>, facts: Facts): ModelError {
    ModelError(
      kind, message,
      if retryable.Some? then retryable.value else RetryableByDefault(kind, facts.status),
      Scoped(facts))
  }

  /** Field by field, what is stated before what is offered. */
  function Completed(facts: Facts, more: Facts): Facts {
    Facts(
      facts.status.OrElse(more.status),
      facts.scope.OrElse(more.scope),
      map field | field in more.carried.Keys + facts.carried.Keys ::
        if field in facts.carried then facts.carried[field] else more.carried[field])
  }

  /** An error completed with what an outer scope knows, constructed anew. */
  function Fill(error: ModelError, known: Known): ModelError {
    Construct(
      Some(error.kind).OrElse(known.kind).value,
      Some(error.message).OrElse(known.message).value,
      Some(error.retryable).OrElse(known.retryable),
      Completed(error.facts, known.facts))
  }

  /** An error built from its first facts, after `n` fills. */
  function Filled(
    kind: Kind, message: string, retryable: Option<bool>, first: Facts, fills: seq<Known>, n: nat): ModelError
    requires n <= |fills|
  {
    if n == 0 then Construct(kind, message, retryable, first)
    else Fill(Filled(kind, message, retryable, first, fills, n - 1), fills[n - 1])
  }

  // ----- what the chain keeps -----

  /** What construction `j` was told: the first facts, or the j-th fill's. */
  function Told(first: Facts, fills: seq<Known>, j: nat): Facts
    requires j <= |fills|
  {
    if j == 0 then first else fills[j - 1].facts
  }

  function Stated(facts: Facts, field: Field): Option<string> {
    if field in facts.carried then Some(facts.carried[field]) else None
  }

  lemma CompletedStates(facts: Facts, more: Facts, field: Field)
    ensures Stated(Completed(facts, more), field) == Stated(facts, field).OrElse(Stated(more, field))
  {
  }

  lemma CompletedAssociative(a: Facts, b: Facts, c: Facts)
    ensures Completed(Completed(a, b), c) == Completed(a, Completed(b, c))
  {
    var left, right := Completed(Completed(a, b), c).carried, Completed(a, Completed(b, c)).carried;
    assert left.Keys == right.Keys;
    assert forall field | field in left :: left[field] == right[field];
  }

  /** Over any chain of fills the kind, the message and the retry verdict are
      the first construction's. */
  lemma {:induction false} VerdictIsFixed(
    kind: Kind, message: string, retryable: Option<bool>, first: Facts, fills: seq<Known>, n: nat)
    requires n <= |fills|
    ensures var error := Filled(kind, message, retryable, first, fills, n);
            && error.kind == kind
            && error.message == message
            && error.retryable ==
               if retryable.Some? then retryable.value else RetryableByDefault(kind, first.status)
  {
    if n > 0 {
      VerdictIsFixed(kind, message, retryable, first, fills, n - 1);
    }
  }

  /** So, unless the first construction was told, an error is retryable over any
      chain exactly when it failed in transport, or a provider rejected it with
      no status, a server's, or 408, 409 or 429; whatever status comes later. */
  lemma RetryableIff(kind: Kind, message: string, first: Facts, fills: seq<Known>, n: nat)
    requires n <= |fills|
    ensures Filled(kind, message, None, first, fills, n).retryable <==>
            || kind == Transport
            || (&& kind == ProviderRejection
                && match first.status
                   case None => true
                   case Some(status) => status >= 500 || status in {408, 409, 429})
  {
    VerdictIsFixed(kind, message, None, first, fills, n);
  }

  /** What the earliest of the constructions 0..n to state a field states. */
  function FirstStated(first: Facts, fills: seq<Known>, n: nat, field: Field): Option<string>
    requires n <= |fills|
  {
    if n == 0 then Stated(first, field)
    else FirstStated(first, fills, n - 1, field).OrElse(Stated(fills[n - 1].facts, field))
  }

  lemma {:induction false} FirstStatedIsFirst(first: Facts, fills: seq<Known>, n: nat, j: nat, field: Field)
    requires j <= n <= |fills|
    ensures FirstStated(first, fills, n, field).None? ==> Stated(Told(first, fills, j), field).None?
    ensures && Stated(Told(first, fills, j), field).Some?
            && (forall i: nat | i < j :: Stated(Told(first, fills, i), field).None?) ==>
              FirstStated(first, fills, n, field) == Stated(Told(first, fills, j), field)
    decreases n
  {
    if j < n {
      FirstStatedIsFirst(first, fills, n - 1, j, field);
    } else if n > 0 && FirstStated(first, fills, n - 1, field).Some? {
      var i := StatedSomewhere(first, fills, n - 1, field);
    }
  }

  lemma {:induction false} StatedSomewhere(first: Facts, fills: seq<Known>, n: nat, field: Field) returns (i: nat)
    requires n <= |fills| && FirstStated(first, fills, n, field).Some?
    ensures i <= n && Stated(Told(first, fills, i), field).Some?
  {
    if n == 0 || FirstStated(first, fills, n - 1, field).None? {
      i := n;
    } else {
      i := StatedSomewhere(first, fills, n - 1, field);
    }
  }

  lemma {:induction false} FilledStates(
    kind: Kind, message: string, retryable: Option<bool>, first: Facts, fills: seq<Known>, n: nat, field: Field)
    requires n <= |fills|
    ensures Stated(Filled(kind, message, retryable, first, fills, n).facts, field) ==
            FirstStated(first, fills, n, field)
  {
    if n > 0 {
      FilledStates(kind, message, retryable, first, fills, n - 1, field);
      CompletedStates(Filled(kind, message, retryable, first, fills, n - 1).facts, fills[n - 1].facts, field);
    }
  }

  /** The scope nearest the failure wins: if construction `j` is the first to
      state a field, the error has what it stated; if the error has nothing,
      no construction stated it. */
  lemma NearestScopeWins(
    kind: Kind, message: string, retryable: Option<bool>, first: Facts, fills: seq<Known>, n: nat, j: nat, field: Field)
    requires j <= n <= |fills|
    ensures var value := Stated(Filled(kind, message, retryable, first, fills, n).facts, field);
            && (value.None? ==> Stated(Told(first, fills, j), field).None?)
            && (Stated(Told(first, fills, j), field).Some?
                && (forall i: nat | i < j :: Stated(Told(first, fills, i), field).None?) ==>
                  value == Stated(Told(first, fills, j), field))
  {
    FilledStates(kind, message, retryable, first, fills, n, field);
    FirstStatedIsFirst(first, fills, n, j, field);
  }

  // ----- the scope -----

  /** The status known after construction `j`. */
  function StatusBy(first: Facts, fills: seq<Known>, j: nat): Option<int>
    requires j <= |fills|
  {
    if j == 0 then first.status else StatusBy(first, fills, j - 1).OrElse(fills[j - 1].facts.status)
  }

  /** A construction decides the scope when it is told one, or when the status
      known by then is retryable. */
  predicate Decides(first: Facts, fills: seq<Known>, j: nat)
    requires j <= |fills|
  {
    Told(first, fills, j).scope.Some? || KnownRetryable(StatusBy(first, fills, j))
  }

  ghost predicate DecidesFirst(first: Facts, fills: seq<Known>, j: nat)
    requires j <= |fills|
  {
    Decides(first, fills, j) && forall i: nat | i < j :: !Decides(first, fills, i)
  }

  lemma {:induction false} FilledStatus(
    kind: Kind, message: string, retryable: Option<bool>, first: Facts, fills: seq<Known>, n: nat)
    requires n <= |fills|
    ensures Filled(kind, message, retryable, first, fills, n).facts.status == StatusBy(first, fills, n)
  {
    if n > 0 {
      FilledStatus(kind, message, retryable, first, fills, n - 1);
    }
  }

  /** The scope after one construction more. */
  lemma ScopeNext(
    kind: Kind, message: string, retryable: Option<bool>, first: Facts, fills: seq<Known>, n: nat)
    requires n <= |fills|
    ensures var scope := Filled(kind, message, retryable, first, fills, n).facts.scope;
            if n > 0 && Filled(kind, message, retryable, first, fills, n - 1).facts.scope.Some? then
              scope == Filled(kind, message, retryable, first, fills, n - 1).facts.scope
            else if Decides(first, fills, n) then scope == Told(first, fills, n).scope.OrElse(Some(RouteScope))
            else scope.None?
  {
    FilledStatus(kind, message, retryable, first, fills, n);
    if n > 0 {
      FilledStatus(kind, message, retryable, first, fills, n - 1);
    }
  }

  /** The first construction that decides the scope fixes it for good: to what
      it was told, else to the route. Undecided, the error has none. */
  lemma {:induction false} FirstDecisionFixesScope(
    kind: Kind, message: string, retryable: Option<bool>, first: Facts, fills: seq<Known>, n: nat)
    requires n <= |fills|
    ensures var facts := Filled(kind, message, retryable, first, fills, n).facts;
            && facts.status == StatusBy(first, fills, n)
            && (facts.scope.None? <==> forall j: nat | j <= n :: !Decides(first, fills, j))
            && forall j: nat | j <= n && DecidesFirst(first, fills, j) ::
                 facts.scope == Told(first, fills, j).scope.OrElse(Some(RouteScope))
  {
    if n > 0 {
      FirstDecisionFixesScope(kind, message, retryable, first, fills, n - 1);
    }
    FilledStatus(kind, message, retryable, first, fills, n);
    ScopeNext(kind, message, retryable, first, fills, n);
  }

  /** On its own a construction takes the route for the scope exactly when none
      is stated and the status is a server's, or 408, 409 or 429. */
  lemma ScopeAtFirst(kind: Kind, message: string, retryable: Option<bool>, first: Facts)
    ensures var facts := Construct(kind, message, retryable, first).facts;
            && facts.status == first.status && facts.carried == first.carried
            && facts.scope ==
               if first.scope.Some? then first.scope
               else match first.status
                    case None => None
                    case Some(status) =>
                      if status >= 500 || status in {408, 409, 429} then Some(RouteScope) else None
  {
  }

  /** Every error the constructor made with a retryable status has a scope. */
  predicate Constructed(error: ModelError) {
    KnownRetryable(error.facts.status) ==> error.facts.scope.Some?
  }

  lemma FilledConstructed(
    kind: Kind, message: string, retryable: Option<bool>, first: Facts, fills: seq<Known>, n: nat)
    requires n <= |fills|
    ensures Constructed(Filled(kind, message, retryable, first, fills, n))
  {
  }

  /** Filling again with the same knowledge changes nothing. */
  lemma RefillIsIdle(error: ModelError, known: Known)
    ensures Fill(Fill(error, known), known) == Fill(error, known)
  {
  }

  function Both(inner: Known, outer: Known): Known {
    Known(inner.kind.OrElse(outer.kind), inner.message.OrElse(outer.message),
          inner.retryable.OrElse(outer.retryable), Completed(inner.facts, outer.facts))
  }

  /** Two fills are one fill of both scopes' knowledge, except in one case: the
      inner scope leaves a retryable status without a scope, which the inner
      construction already takes for the route, before the outer scope can say
      that it was the model. */
  lemma FillsComposeIff(error: ModelError, inner: Known, outer: Known)
    ensures Fill(Fill(error, inner), outer) == Fill(error, Both(inner, outer)) <==>
            !(&& error.facts.scope.None?
              && inner.facts.scope.None?
              && KnownRetryable(error.facts.status.OrElse(inner.facts.status))
              && outer.facts.scope == Some(ModelScope))
  {
    CompletedAssociative(error.facts, inner.facts, outer.facts);
    var once := Completed(Completed(error.facts, inner.facts), outer.facts);
    var step := Scoped(Completed(error.facts, inner.facts));
    assert Completed(step, outer.facts) == once.(scope := step.scope.OrElse(outer.facts.scope));
    var twice := Scoped(Completed(step, outer.facts));
    assert Fill(Fill(error, inner), outer) == ModelError(error.kind, error.message, error.retryable, twice);
    assert Fill(error, Both(inner, outer)) == ModelError(error.kind, error.message, error.retryable, Scoped(once));
    assert twice == Scoped(once).(scope := twice.scope);
    if outer.facts.scope.Some? {
      assert outer.facts.scope.value.ModelScope? || outer.facts.scope.value.RouteScope?;
    }
  }

  const NOTHING_STATED := Facts(None, None, map[])

  function Knows(facts: Facts): Known {
    Known(None, None, None, facts)
  }

  /** The exception is met: a rate limit learned before its scope is taken for
      the route's, though one fill of both would make it the model's. */
  lemma RateLimitScopeIsTaken(kind: Kind, message: string)
    ensures var error := Construct(kind, message, None, NOTHING_STATED);
            var limited := Knows(NOTHING_STATED.(status := Some(429)));
            var scoped := Knows(NOTHING_STATED.(scope := Some(ModelScope)));
            && Fill(Fill(error, limited), scoped).facts.scope == Some(RouteScope)
            && Fill(error, Both(limited, scoped)).facts.scope == Some(ModelScope)
  {
  }
}
