/** Single-process model capacity (src/qs_ai/application/execution/model_capacity.py): counters per
    provider, tokens that give their place back once, and a wake-up event for waiting generations. */
module ModelCapacities {
  import opened Outcomes

  /** A configured provider, known by its name. */
  datatype Provider = Provider(id: string)

  /** ProviderCapacity refuses anything else. */
  datatype ProviderCapacity = ProviderCapacity(total: int, reserved: int) {
    predicate Valid() {
      1 <= total <= 32 && 0 <= reserved < total
    }
  }

  /** The sum of a dictionary's values, in its own order of keys. */
  function SumOver(names: seq<Provider>, counts: map<Provider, int>): int
    requires forall name :: name in names ==> name in counts
  {
    if names == [] then 0 else SumOver(names[..|names| - 1], counts) + counts[names[|names| - 1]]
  }

  lemma {:induction false} SumAfterUpdate(names: seq<Provider>, counts: map<Provider, int>, name: Provider, value: int)
    requires forall n :: n in names ==> n in counts
    requires forall i, j :: 0 <= i < j < |names| ==> names[i] != names[j]
    ensures SumOver(names, counts[name := value]) ==
            SumOver(names, counts) + (if name in names then value - counts[name] else 0)
  {
    if names != [] {
      var front, last := names[..|names| - 1], names[|names| - 1];
      SumAfterUpdate(front, counts, name, value);
      assert names == front + [last];
    }
  }

  lemma {:induction false} SumOfZeros(names: seq<Provider>, counts: map<Provider, int>)
    requires forall n :: n in names ==> n in counts && counts[n] == 0
    ensures SumOver(names, counts) == 0
  {
    if names != [] {
      SumOfZeros(names[..|names| - 1], counts);
    }
  }

  class CapacityToken {
    const capacity: ModelCapacity
    const provider: Provider
    const evaluation: bool
    var released: bool

    constructor (capacity: ModelCapacity, provider: Provider, evaluation: bool)
      ensures this.capacity == capacity && this.provider == provider && this.evaluation == evaluation && !released
    {
      this.capacity := capacity;
      this.provider := provider;
      this.evaluation := evaluation;
      released := false;
    }

    /** Gives the place back; every further call changes nothing. */
    method Release()
      requires capacity.Valid() && this in capacity.issued
      modifies this, capacity
      ensures capacity.Valid() && released
      ensures capacity.issued == old(capacity.issued)
      ensures capacity.Live() == old(capacity.Live()) - {this}
      ensures old(released) ==> capacity.parked == old(capacity.parked) && capacity.changed == old(capacity.changed)
      ensures !old(released) ==> capacity.parked == map[] && capacity.changed
    {
      hide Balanced;
      if !released {
        ghost var before := capacity.Live();
        released := true;
        assert before == capacity.Live() + {this};
        capacity.Released(this);
      }
    }
  }

  class ModelCapacity {
    const names: seq<Provider>
    const providers: map<Provider, ProviderCapacity>
    const limit: int
    var active: map<Provider, int>
    var evaluations: map<Provider, int>
    var changed: bool
    /** Every token ever handed out; a token is live until it is released. */
    ghost var issued: set<CapacityToken>
    /** Waiters parked on the event and not yet woken, with the provider each one waits for. */
    ghost var parked: map<nat, Provider>

    ghost function Live(): set<CapacityToken>
      reads this`issued, issued`released
    {
      set t | t in issued && !t.released
    }

    /** The counters count exactly the live tokens, within every limit, and whoever is parked waits
        for a provider that is full. */
    ghost predicate Valid()
      reads this, issued
    {
      && Configured(names, providers, limit)
      && (forall t :: t in issued ==> t.capacity == this && t.provider in providers)
      && Balanced(names, providers, limit, active, evaluations, Live())
      && (forall w :: w in parked ==> parked[w] in providers && Full(parked[w]))
    }

    predicate Full(provider: Provider)
      reads this
      requires provider in providers
    {
      provider in active && active[provider] >= providers[provider].total
    }

    constructor (names: seq<Provider>, providers: map<Provider, ProviderCapacity>, limit: int)
      requires 1 <= limit <= 32
      requires forall i, j :: 0 <= i < j < |names| ==> names[i] != names[j]
      requires forall name :: name in names <==> name in providers
      requires forall name :: name in providers ==> providers[name].Valid()
      ensures Valid() && issued == {} && parked == map[] && this.providers == providers && this.limit == limit
    {
      this.names := names;
      this.providers := providers;
      this.limit := limit;
      active := map name | name in providers :: 0;
      evaluations := map name | name in providers :: 0;
      changed := false;
      issued := {};
      parked := map[];
      new;
      EmptyIsBalanced(names, providers, limit, active, evaluations);
    }

    /** Nonblocking admission. An unknown provider is an error; otherwise a place is refused exactly
        when the provider is full or, for an evaluation, when the global limit or the part not reserved
        for generations is used up. */
    method TryAcquire(provider: Provider, evaluation: bool) returns (r: Outcome<CapacityToken?>)
      requires Valid()
      modifies this`active, this`evaluations, this`issued
      ensures Valid() && parked == old(parked) && changed == old(changed)
      ensures (r.Raised? <==> provider !in providers) && !r.Crashed?
      ensures r.Raised? || r.value == null ==>
                active == old(active) && evaluations == old(evaluations) && issued == old(issued)
      ensures r.Done? && r.value != null ==>
                && fresh(r.value) && !r.value.released && r.value.capacity == this
                && r.value.provider == provider && r.value.evaluation == evaluation
                && issued == old(issued) + {r.value} && Live() == old(Live()) + {r.value}
      ensures r.Done? ==>
                (r.value == null <==>
                  || |Of(old(Live()), provider)| >= providers[provider].total
                  || (evaluation &&
                      (|old(EvaluationsIn(Live()))| >= limit
                       || |EvaluationsOf(old(Live()), provider)| >= providers[provider].total - providers[provider].reserved)))
      ensures r.Done? && !evaluation && |GenerationsOf(old(Live()), provider)| < providers[provider].reserved ==> r.value != null
    {
      hide Balanced, Of, EvaluationsOf, GenerationsOf, EvaluationsIn, SumOver;
      if provider !in providers {
        return Raised;
      }
      ghost var before := Live();
      ReadCounters(names, providers, limit, active, evaluations, before, provider);
      var limits := providers[provider];
      if active[provider] >= limits.total {
        return Done(null);
      }
      if evaluation &&
         (Sum(evaluations) >= limit || evaluations[provider] >= limits.total - limits.reserved)
      {
        return Done(null);
      }
      var token := new CapacityToken(this, provider, evaluation);
      AcquireKeepsBalance(names, providers, limit, active, evaluations, before, token);
      active := active[provider := active[provider] + 1];
      evaluations := evaluations[provider := evaluations[provider] + if evaluation then 1 else 0];
      issued := issued + {token};
      assert Live() == before + {token};
      r := Done(token);
    }

    function Sum(counts: map<Provider, int>): int
      requires forall name :: name in names ==> name in counts
    {
      SumOver(names, counts)
    }

    /** One turn of the waiting loop, up to its await: a generation gets a place now, or parks on the
        event; there is no interleaving between the clear, the attempt and the wait. */
    method AcquireGenerationTurn(waiter: nat, provider: Provider) returns (r: Outcome<CapacityToken?>)
      requires Valid()
      modifies this
      ensures Valid()
      ensures (r.Raised? <==> provider !in providers) && !r.Crashed?
      ensures r.Done? && r.value != null ==>
                && fresh(r.value) && !r.value.released && r.value.capacity == this
                && r.value.provider == provider && !r.value.evaluation
                && Live() == old(Live()) + {r.value} && parked == old(parked)
                && issued == old(issued) + {r.value}
      ensures r.Done? && r.value == null ==> parked == old(parked)[waiter := provider] && issued == old(issued)
      ensures r.Done? ==> (r.value == null <==> |Of(old(Live()), provider)| >= providers[provider].total)
      ensures r.Done? && |GenerationsOf(old(Live()), provider)| < providers[provider].reserved ==> r.value != null
    {
      hide Balanced, Of, EvaluationsOf, GenerationsOf, EvaluationsIn, SumOver, Configured;
      changed := false;
      r := TryAcquire(provider, false);
      if r.Done? && r.value == null {
        ReadCounters(names, providers, limit, active, evaluations, Live(), provider);
        parked := parked[waiter := provider];
      }
    }

    /** Cancelling a parked waiter takes nothing with it. */
    ghost method CancelWaiter(waiter: nat)
      requires Valid()
      modifies this`parked
      ensures Valid() && waiter !in parked && Live() == old(Live())
    {
      hide Balanced;
      parked := parked - {waiter};
    }

    /** The counters give back one place and the event wakes every parked waiter (_release). */
    method Released(token: CapacityToken)
      requires Configured(names, providers, limit)
      requires forall t :: t in issued ==> t.capacity == this && t.provider in providers
      requires token in issued && token.released
      requires Balanced(names, providers, limit, active, evaluations, Live() + {token})
      modifies this`active, this`evaluations, this`changed, this`parked
      ensures Valid() && changed && parked == map[]
    {
      hide Balanced;
      var provider := token.provider;
      ReleaseKeepsBalance(names, providers, limit, active, evaluations, Live(), token);
      active := active[provider := active[provider] - 1];
      evaluations := evaluations[provider := evaluations[provider] - if token.evaluation then 1 else 0];
      changed := true;
      parked := map[];
    }
  }

  ghost predicate Configured(names: seq<Provider>, providers: map<Provider, ProviderCapacity>, limit: int) {
    && 1 <= limit <= 32
    && (forall i, j :: 0 <= i < j < |names| ==> names[i] != names[j])
    && (forall name :: name in names <==> name in providers)
    && (forall name :: name in providers ==> providers[name].Valid())
  }

  /** The counters as functions of the live tokens, and the limits on them. */
  ghost predicate Balanced(names: seq<Provider>, providers: map<Provider, ProviderCapacity>, limit: int,
                           active: map<Provider, int>, evaluations: map<Provider, int>, tokens: set<CapacityToken>)
  {
    && active.Keys == providers.Keys && evaluations.Keys == providers.Keys
    && (forall name :: name in names ==> name in providers)
    && (forall name :: name in providers ==>
          && active[name] == |Of(tokens, name)| <= providers[name].total
          && evaluations[name] == |EvaluationsOf(tokens, name)| <= providers[name].total - providers[name].reserved)
    && SumOver(names, evaluations) <= limit
  }

  ghost function Of(tokens: set<CapacityToken>, provider: Provider): set<CapacityToken> {
    set t | t in tokens && t.provider == provider
  }

  ghost function EvaluationsOf(tokens: set<CapacityToken>, provider: Provider): set<CapacityToken> {
    set t | t in tokens && t.provider == provider && t.evaluation
  }

  ghost function GenerationsOf(tokens: set<CapacityToken>, provider: Provider): set<CapacityToken> {
    set t | t in tokens && t.provider == provider && !t.evaluation
  }

  ghost function EvaluationsIn(tokens: set<CapacityToken>): set<CapacityToken> {
    set t | t in tokens && t.evaluation
  }

  lemma SplitByKind(tokens: set<CapacityToken>, provider: Provider)
    ensures |Of(tokens, provider)| == |EvaluationsOf(tokens, provider)| + |GenerationsOf(tokens, provider)|
  {
    assert Of(tokens, provider) == EvaluationsOf(tokens, provider) + GenerationsOf(tokens, provider);
    assert EvaluationsOf(tokens, provider) !! GenerationsOf(tokens, provider);
  }

  /** One more token counts once, for its own provider and kind only. */
  lemma CountWith(tokens: set<CapacityToken>, token: CapacityToken, name: Provider)
    requires token !in tokens
    ensures |Of(tokens + {token}, name)| == |Of(tokens, name)| + if name == token.provider then 1 else 0
    ensures |EvaluationsOf(tokens + {token}, name)| ==
            |EvaluationsOf(tokens, name)| + if name == token.provider && token.evaluation then 1 else 0
  {
    assert Of(tokens + {token}, name) == Of(tokens, name) + if name == token.provider then {token} else {};
    assert EvaluationsOf(tokens + {token}, name) ==
           EvaluationsOf(tokens, name) + if name == token.provider && token.evaluation then {token} else {};
  }

  ghost function EvaluationsAmong(tokens: set<CapacityToken>, names: seq<Provider>): set<CapacityToken> {
    set t | t in tokens && t.evaluation && t.provider in names
  }

  lemma {:induction false} SumCountsEvaluations(tokens: set<CapacityToken>, names: seq<Provider>, counts: map<Provider, int>)
    requires forall i, j :: 0 <= i < j < |names| ==> names[i] != names[j]
    requires forall n :: n in names ==> n in counts && counts[n] == |EvaluationsOf(tokens, n)|
    ensures SumOver(names, counts) == |EvaluationsAmong(tokens, names)|
  {
    if names == [] {
      assert EvaluationsAmong(tokens, names) == {};
    } else {
      var front, last := names[..|names| - 1], names[|names| - 1];
      SumCountsEvaluations(tokens, front, counts);
      assert names == front + [last];
      assert EvaluationsAmong(tokens, names) == EvaluationsAmong(tokens, front) + EvaluationsOf(tokens, last);
      assert EvaluationsAmong(tokens, front) !! EvaluationsOf(tokens, last);
    }
  }

  lemma EmptyIsBalanced(names: seq<Provider>, providers: map<Provider, ProviderCapacity>, limit: int,
                        active: map<Provider, int>, evaluations: map<Provider, int>)
    requires Configured(names, providers, limit)
    requires active == (map name | name in providers :: 0) && evaluations == active
    ensures Balanced(names, providers, limit, active, evaluations, {})
  {
    SumOfZeros(names, evaluations);
    forall name | name in providers ensures Of({}, name) == {} && EvaluationsOf({}, name) == {} {
    }
  }

  /** What the counters of a balanced state say about the live tokens. */
  lemma ReadCounters(names: seq<Provider>, providers: map<Provider, ProviderCapacity>, limit: int,
                     active: map<Provider, int>, evaluations: map<Provider, int>, tokens: set<CapacityToken>, provider: Provider)
    requires Configured(names, providers, limit) && provider in providers
    requires forall t :: t in tokens ==> t.provider in providers
    requires Balanced(names, providers, limit, active, evaluations, tokens)
    ensures active.Keys == providers.Keys && evaluations.Keys == providers.Keys
    ensures active[provider] == |Of(tokens, provider)| <= providers[provider].total
    ensures evaluations[provider] == |EvaluationsOf(tokens, provider)| <= providers[provider].total - providers[provider].reserved
    ensures |Of(tokens, provider)| == |EvaluationsOf(tokens, provider)| + |GenerationsOf(tokens, provider)|
    ensures SumOver(names, evaluations) == |EvaluationsIn(tokens)| <= limit
  {
    SplitByKind(tokens, provider);
    SumCountsEvaluations(tokens, names, evaluations);
    assert EvaluationsIn(tokens) == EvaluationsAmong(tokens, names);
  }

  lemma AcquireKeepsBalance(names: seq<Provider>, providers: map<Provider, ProviderCapacity>, limit: int,
                            active: map<Provider, int>, evaluations: map<Provider, int>, tokens: set<CapacityToken>,
                            token: CapacityToken)
    requires Configured(names, providers, limit) && token.provider in providers && token !in tokens
    requires Balanced(names, providers, limit, active, evaluations, tokens)
    requires active[token.provider] < providers[token.provider].total
    requires token.evaluation ==>
               && SumOver(names, evaluations) < limit
               && evaluations[token.provider] < providers[token.provider].total - providers[token.provider].reserved
    ensures Balanced(names, providers, limit, active[token.provider := active[token.provider] + 1],
                     evaluations[token.provider := evaluations[token.provider] + if token.evaluation then 1 else 0],
                     tokens + {token})
  {
    hide Of, EvaluationsOf, SumOver;
    var p := token.provider;
    var active', evaluations' := active[p := active[p] + 1], evaluations[p := evaluations[p] + if token.evaluation then 1 else 0];
    SumAfterUpdate(names, evaluations, p, evaluations'[p]);
    hide Configured;
    forall name | name in providers
      ensures active'[name] == |Of(tokens + {token}, name)| <= providers[name].total
      ensures evaluations'[name] == |EvaluationsOf(tokens + {token}, name)| <= providers[name].total - providers[name].reserved
    {
      CountWith(tokens, token, name);
    }
  }

  lemma ReleaseKeepsBalance(names: seq<Provider>, providers: map<Provider, ProviderCapacity>, limit: int,
                            active: map<Provider, int>, evaluations: map<Provider, int>, tokens: set<CapacityToken>,
                            token: CapacityToken)
    requires Configured(names, providers, limit) && token.provider in providers && token !in tokens
    requires Balanced(names, providers, limit, active, evaluations, tokens + {token})
    ensures active.Keys == providers.Keys && evaluations.Keys == providers.Keys
    ensures Balanced(names, providers, limit, active[token.provider := active[token.provider] - 1],
                     evaluations[token.provider := evaluations[token.provider] - if token.evaluation then 1 else 0],
                     tokens)
  {
    hide Of, EvaluationsOf, SumOver;
    var p := token.provider;
    var active', evaluations' := active[p := active[p] - 1], evaluations[p := evaluations[p] - if token.evaluation then 1 else 0];
    SumAfterUpdate(names, evaluations, p, evaluations'[p]);
    forall name | name in providers
      ensures active'[name] == |Of(tokens, name)| <= providers[name].total
      ensures evaluations'[name] == |EvaluationsOf(tokens, name)| <= providers[name].total - providers[name].reserved
    {
      CountWith(tokens, token, name);
    }
  }

  /** What a caller sees of a valid state: every limit holds for the live tokens, generations below
      their reserve leave room, and a parked waiter's provider has no room. */
  lemma LimitsHold(capacity: ModelCapacity, provider: Provider)
    requires capacity.Valid() && provider in capacity.providers
    ensures |Of(capacity.Live(), provider)| <= capacity.providers[provider].total
    ensures |EvaluationsOf(capacity.Live(), provider)| + capacity.providers[provider].reserved <= capacity.providers[provider].total
    ensures |EvaluationsIn(capacity.Live())| <= capacity.limit
    ensures |GenerationsOf(capacity.Live(), provider)| < capacity.providers[provider].reserved ==>
              |Of(capacity.Live(), provider)| < capacity.providers[provider].total
    ensures provider in capacity.parked.Values ==>
              |Of(capacity.Live(), provider)| == capacity.providers[provider].total
  {
    hide Balanced;
    ReadCounters(capacity.names, capacity.providers, capacity.limit, capacity.active, capacity.evaluations,
                 capacity.Live(), provider);
  }
}
