// The bounded cache of discovered models and the lookup of a route in it (models.go,
// upstream.go). The cache is keyed by the digest of an account's credential.
module ModelCache {
  import opened Wrappers
  import opened Models

  const TTL := 300_000_000_000
  const CAPACITY := 8

  // Nanoseconds; 0 is the zero time, which no clock returns.
  type Clock = t: nat | t > 0 witness 1

  datatype CachedModels = CachedModels(models: seq<string>, at: Clock, routes: map<string, ModelRoute>) {
    ghost predicate Closed() {
      models != [] && Ascending(models) && Lists(models, routes.Keys)
    }
  }

  type Cache = map<nat, CachedModels>

  predicate Young(c: CachedModels, now: Clock) {
    now - c.at < TTL
  }

  function Pruned(cache: Cache, now: Clock): Cache {
    map g | g in cache && Young(cache[g], now) :: cache[g]
  }

  predicate Oldest(cache: Cache, g: nat) {
    g in cache && forall k | k in cache :: cache[g].at <= cache[k].at
  }

  predicate Full(cache: Cache, g: nat) {
    g !in cache && |cache| >= CAPACITY
  }

  // A discovery enters the pruned cache, an oldest entry making room.
  function Admitted(cache: Cache, g: nat, c: CachedModels, victim: nat): Cache {
    var kept := Pruned(cache, c.at);
    (if Full(kept, g) then kept - {victim} else kept)[g := c]
  }

  // ---------- Runs of the cache ----------

  datatype Op = Look(now: Clock) | Remember(g: nat, entry: CachedModels, victim: nat)

  function Apply(cache: Cache, op: Op): Cache {
    match op
    case Look(now) => Pruned(cache, now)
    case Remember(g, c, victim) => Admitted(cache, g, c, victim)
  }

  function Run(ops: seq<Op>): Cache {
    if ops == [] then map[] else Apply(Run(ops[..|ops| - 1]), ops[|ops| - 1])
  }

  // The victims are oldest entries and what is remembered is complete.
  ghost predicate Lawful(cache: Cache, op: Op) {
    op.Remember? ==>
      && op.entry.Closed()
      && (Full(Pruned(cache, op.entry.at), op.g) ==> Oldest(Pruned(cache, op.entry.at), op.victim))
  }

  ghost predicate Genuine(ops: seq<Op>) {
    ops == [] || (Genuine(ops[..|ops| - 1]) && Lawful(Run(ops[..|ops| - 1]), ops[|ops| - 1]))
  }

  // What was last discovered for an account.
  function Latest(ops: seq<Op>, g: nat): Option<CachedModels> {
    if ops == [] then None
    else if ops[|ops| - 1].Remember? && ops[|ops| - 1].g == g then Some(ops[|ops| - 1].entry)
    else Latest(ops[..|ops| - 1], g)
  }

  lemma PrunedSize(cache: Cache, now: Clock)
    ensures |Pruned(cache, now)| <= |cache|
  {
    assert Pruned(cache, now).Keys <= cache.Keys;
    Fewer(Pruned(cache, now).Keys, cache.Keys);
  }

  lemma {:induction false} Fewer(a: set<nat>, b: set<nat>)
    requires a <= b
    ensures |a| <= |b|
  {
    if a != {} {
      var x :| x in a;
      Fewer(a - {x}, b - {x});
    }
  }

  lemma AdmittedSize(cache: Cache, g: nat, c: CachedModels, victim: nat)
    requires |cache| <= CAPACITY
    requires Full(Pruned(cache, c.at), g) ==> victim in Pruned(cache, c.at)
    ensures |Admitted(cache, g, c, victim)| <= CAPACITY
  {
    PrunedSize(cache, c.at);
    var kept := Pruned(cache, c.at);
    WithoutSize(kept, victim);
    WithSize(if Full(kept, g) then kept - {victim} else kept, g, c);
  }

  lemma WithoutSize(cache: Cache, g: nat)
    ensures |cache - {g}| == if g in cache then |cache| - 1 else |cache|
  {
    assert (cache - {g}).Keys == cache.Keys - {g};
  }

  lemma WithSize(cache: Cache, g: nat, c: CachedModels)
    ensures |cache[g := c]| == if g in cache then |cache| else |cache| + 1
  {
    assert cache[g := c].Keys == cache.Keys + {g};
  }

  // In every run the cache holds at most eight accounts, and what it serves for an
  // account is what was last discovered for it, complete and younger than the limit.
  lemma {:induction false} ServesLatest(ops: seq<Op>, now: Clock, g: nat)
    requires Genuine(ops)
    ensures |Run(ops)| <= CAPACITY
    ensures g in Run(ops) ==> Latest(ops, g) == Some(Run(ops)[g]) && Run(ops)[g].Closed()
    ensures g in Pruned(Run(ops), now) ==>
              Latest(ops, g) == Some(Pruned(Run(ops), now)[g]) && Latest(ops, g).value.Closed()
                && now - Latest(ops, g).value.at < TTL
  {
    if ops != [] {
      var before := ops[..|ops| - 1];
      ServesLatest(before, now, g);
      match ops[|ops| - 1]
      case Look(t) => PrunedSize(Run(before), t);
      case Remember(h, c, victim) => AdmittedSize(Run(before), h, c, victim);
    }
  }

  // Admitting an account drops another only if it has expired or nothing that stays is older.
  lemma DropsOnlyOldest(cache: Cache, g: nat, c: CachedModels, victim: nat, lost: nat)
    requires Full(Pruned(cache, c.at), g) ==> Oldest(Pruned(cache, c.at), victim)
    requires lost in cache && lost !in Admitted(cache, g, c, victim)
    ensures lost != g
    ensures !Young(cache[lost], c.at) ||
            forall k | k in Admitted(cache, g, c, victim) && k != g ::
              cache[lost].at <= Admitted(cache, g, c, victim)[k].at
  {}

  // ---------- Requests among other requests ----------

  datatype RouteError = NoModels | DiscoveryFailed | NotAvailable

  // What asking the upstream for its models comes to.
  datatype Discovery = Undiscovered(error: RouteError) | Discovered(entry: CachedModels, victim: nat)

  // What all other requests do to the cache while this one does not hold the lock:
  // before it looks for names, while it asks the upstream, before it looks again.
  datatype Others = Others(before: seq<Op>, during: seq<Op>, after: seq<Op>)

  const NOBODY := Others([], [], [])

  // The history of the cache after a request, and the request's answer.
  datatype Asked<T> = Asked(history: seq<Op>, answer: Result<T, RouteError>)

  // modelNames: from the pruned cache, else from a discovery.
  function AskNames(h: seq<Op>, g: nat, now: Clock, during: seq<Op>, d: Discovery): Asked<seq<string>> {
    var looked := h + [Look(now)];
    if g in Run(looked) then Asked(looked, Ok(Run(looked)[g].models))
    else
      match d
      case Undiscovered(error) => Asked(looked + during, Err(error))
      case Discovered(entry, victim) => Asked(looked + during + [Remember(g, entry, victim)], Ok(entry.models))
  }

  // resolveRoute: from a young entry, else from what is there after asking for names.
  function AskRoute(h: seq<Op>, g: nat, model: string, now: Clock, look: Clock, others: Others,
                    d: Discovery): Asked<ModelRoute> {
    if Offered(h, g, model) && Young(Run(h)[g], now) then Asked(h, Ok(Run(h)[g].routes[model]))
    else
      var names := AskNames(h + others.before, g, look, others.during, d);
      var last := names.history + others.after;
      match names.answer
      case Err(error) => Asked(names.history, Err(error))
      case Ok(_) =>
        if Offered(last, g, model) then Asked(last, Ok(Run(last)[g].routes[model])) else Asked(last, Err(NotAvailable))
  }

  predicate Offered(h: seq<Op>, g: nat, model: string) {
    g in Run(h) && model in Run(h)[g].routes
  }

  // The last discovery of an account lists the model.
  predicate LatelyListed(h: seq<Op>, g: nat, model: string) {
    Latest(h, g).Some? && model in Latest(h, g).value.models
  }

  lemma OfferedIsListed(h: seq<Op>, g: nat, model: string)
    requires Genuine(h) && g in Run(h)
    ensures Offered(h, g, model) <==> LatelyListed(h, g, model)
  {
    ServesLatest(h, 1, g);
    DistinctListing(Run(h)[g].models, Run(h)[g].routes.Keys);
  }

  // Whatever other requests do in between: a model is refused if and only if no young
  // entry offered it at first, names could be found, and then the account has been
  // dropped again or its last discovery, whoever made it, does not list the model.
  lemma {:induction false} RefusedExactly(h: seq<Op>, g: nat, model: string, now: Clock, look: Clock, others: Others,
                                          d: Discovery)
    requires Genuine(h) && Genuine(AskRoute(h, g, model, now, look, others, d).history)
    requires d.Undiscovered? ==> d.error != NotAvailable
    ensures var a := AskRoute(h, g, model, now, look, others, d);
            a.answer == Err(NotAvailable) <==>
            && !(g in Run(h) && Young(Run(h)[g], now) && LatelyListed(h, g, model))
            && AskNames(h + others.before, g, look, others.during, d).answer.Ok?
            && !(g in Run(a.history) && LatelyListed(a.history, g, model))
  {
    if g in Run(h) { OfferedIsListed(h, g, model); }
    var last := AskNames(h + others.before, g, look, others.during, d).history + others.after;
    if AskRoute(h, g, model, now, look, others, d).history == last && g in Run(last) {
      OfferedIsListed(last, g, model);
    }
  }

  // ---------- A model that was offered before ----------

  // No other request stores a discovery for the account.
  predicate Untouched(ops: seq<Op>, g: nat) {
    forall i | 0 <= i < |ops| :: ops[i].Remember? ==> ops[i].g != g
  }

  // What a lookup comes to when nobody interferes with it: the entry found decides if it
  // is young enough to be found again, else the discovery made on the spot.
  lemma {:induction false} RefusedAtOnce(h: seq<Op>, g: nat, model: string, now: Clock, look: Clock, d: Discovery)
    requires now <= look && Genuine(h)
             && (d.Discovered? ==> Lawful(Run(h + [Look(look)]), Remember(g, d.entry, d.victim)))
    requires d.Undiscovered? ==> d.error != NotAvailable
    ensures AskRoute(h, g, model, now, look, NOBODY, d).answer == Err(NotAvailable) <==>
            if g in Run(h) && Young(Run(h)[g], look) then !LatelyListed(h, g, model)
            else
              && !(g in Run(h) && Young(Run(h)[g], now) && LatelyListed(h, g, model))
              && d.Discovered? && model !in d.entry.models
  {
    if g in Run(h) { OfferedIsListed(h, g, model); }
    var looked := h + [Look(look)];
    assert looked[..|h|] == h && h + [] == h && looked + [] == looked;
    if d.Discovered? {
      var last := looked + [Remember(g, d.entry, d.victim)];
      assert last[..|looked|] == looked && last + [] == last && looked + [] + [Remember(g, d.entry, d.victim)] == last;
      DistinctListing(d.entry.models, d.entry.routes.Keys);
    }
  }

  lemma {:induction false} LatestUntouched(h: seq<Op>, gap: seq<Op>, g: nat)
    requires Untouched(gap, g)
    ensures Latest(h + gap, g) == Latest(h, g)
  {
    if gap == [] {
      assert h + gap == h;
    } else {
      assert (h + gap)[..|h + gap| - 1] == h + gap[..|gap| - 1];
      LatestUntouched(h, gap[..|gap| - 1], g);
    }
  }

  // What the account's last discovery is after a lookup, if nobody else discovers for it.
  lemma LatestAfterNames(h: seq<Op>, g: nat, look: Clock, during: seq<Op>, d: Discovery)
    requires Untouched(during, g) && AskNames(h, g, look, during, d).answer.Ok?
    ensures Latest(AskNames(h, g, look, during, d).history, g) ==
            if g in Run(h + [Look(look)]) then Latest(h, g) else Some(d.entry)
  {
    LatestUntouched(h, [Look(look)], g);
    if g !in Run(h + [Look(look)]) {
      var before := h + [Look(look)] + during;
      assert (before + [Remember(g, d.entry, d.victim)])[..|before|] == before;
    }
  }

  ghost predicate Elsewhere(others: Others, g: nat) {
    Untouched(others.before, g) && Untouched(others.during, g) && Untouched(others.after, g)
  }

  // A model offered once, by the choice of the automatic model or by an earlier lookup of
  // the same request, and looked up again while other requests work on other accounts,
  // before this lookup and all through it: it is refused if and only if its entry has
  // expired or been dropped meanwhile, names can be found, and then the account is dropped
  // once more or the names come from a new discovery that does not list it.
  lemma {:induction false} OfferedThenRefused(h: seq<Op>, gap: seq<Op>, g: nat, model: string, now: Clock, look: Clock,
                                              others: Others, d: Discovery)
    requires Genuine(h + gap) && Untouched(gap, g) && Elsewhere(others, g) && g in Run(h) && LatelyListed(h, g, model)
    requires Genuine(AskRoute(h + gap, g, model, now, look, others, d).history)
    requires d.Undiscovered? ==> d.error != NotAvailable
    ensures var a := AskRoute(h + gap, g, model, now, look, others, d);
            var found := g in Run(h + gap + others.before + [Look(look)]);
            a.answer == Err(NotAvailable) <==>
            && !(g in Run(h + gap) && Young(Run(h + gap)[g], now))
            && (found || d.Discovered?)
            && (g !in Run(a.history) || (!found && model !in d.entry.models))
  {
    LatestUntouched(h, gap, g);
    RefusedExactly(h + gap, g, model, now, look, others, d);
    var before := h + gap + others.before;
    LatestUntouched(h + gap, others.before, g);
    var names := AskNames(before, g, look, others.during, d);
    if names.answer.Ok? {
      LatestAfterNames(before, g, look, others.during, d);
      LatestUntouched(names.history, others.after, g);
    }
  }

  // So is a model that has just got its route: the same request looks it up once more
  // after its answer has started.
  lemma {:induction false} RoutedIsOffered(h: seq<Op>, g: nat, model: string, now: Clock, look: Clock, others: Others,
                                           d: Discovery)
    requires Genuine(h) && Genuine(AskRoute(h, g, model, now, look, others, d).history)
    requires AskRoute(h, g, model, now, look, others, d).answer.Ok?
    ensures var a := AskRoute(h, g, model, now, look, others, d);
            g in Run(a.history) && LatelyListed(a.history, g, model)
  {
    OfferedIsListed(AskRoute(h, g, model, now, look, others, d).history, g, model);
  }

  // The automatic model is the first name that was found.
  lemma {:induction false} NamesAreOffered(h: seq<Op>, g: nat, now: Clock, during: seq<Op>, d: Discovery)
    requires Genuine(AskNames(h, g, now, during, d).history) && AskNames(h, g, now, during, d).answer.Ok?
    ensures var a := AskNames(h, g, now, during, d);
            && a.answer.value != [] && g in Run(a.history)
            && LatelyListed(a.history, g, a.answer.value[0])
  {
    var a := AskNames(h, g, now, during, d);
    ServesLatest(a.history, now, g);
    if g !in Run(h + [Look(now)]) {
      var before := h + [Look(now)] + during;
      assert a.history[..|before|] == before;
    }
  }

  // Two requests of one account may race: when another request's discovery, stored after
  // the first name was chosen, does not list that name, the request is refused although
  // neither discovery has expired.
  lemma {:induction false} RaceRefuses(h: seq<Op>, g: nat, ours: CachedModels, theirs: CachedModels, v: nat, u: nat,
                                       now: Clock, look: Clock, d: Discovery)
    requires Genuine(h + [Remember(g, ours, v), Remember(g, theirs, u)])
    requires ours.models != [] && ours.models[0] !in theirs.models
    requires now <= look && Young(ours, look) && Young(theirs, look)
    requires d == Undiscovered(DiscoveryFailed)
    ensures var stored := h + [Remember(g, ours, v), Remember(g, theirs, u)];
            AskRoute(stored, g, ours.models[0], now, look, NOBODY, d).answer == Err(NotAvailable)
  {
    var all := h + [Remember(g, ours, v), Remember(g, theirs, u)];
    assert all[..|all| - 1] == h + [Remember(g, ours, v)];
    RefusedAtOnce(all, g, ours.models[0], now, look, d);
  }

  // ---------- The client as it runs ----------

  // Sections that store only complete discoveries.
  ghost predicate Storable(work: seq<Op>) {
    forall i | 0 <= i < |work| :: work[i].Remember? ==> work[i].entry.Closed()
  }

  // The same sections, but for the entries dropped to make room.
  predicate SameOp(op: Op, work: Op) {
    match work
    case Look(_) => op == work
    case Remember(g, entry, _) => op.Remember? && op.g == g && op.entry == entry
  }

  ghost predicate SameWork(ops: seq<Op>, work: seq<Op>) {
    |ops| == |work| && forall i | 0 <= i < |ops| :: SameOp(ops[i], work[i])
  }

  type Offers = map<string, seq<ModelConfig>>

  class TraeClient {
    var cache: Cache
    ghost var history: seq<Op>

    ghost predicate Valid()
      reads this
    {
      cache == Run(history) && Genuine(history)
    }

    constructor ()
      ensures Valid() && history == []
    {
      cache := map[];
      history := [];
    }

    method PruneModelCache(now: Clock)
      modifies this`cache
      ensures cache == Pruned(old(cache), now)
    {
      ghost var was := cache;
      var todo := cache.Keys;
      while todo != {}
        invariant todo <= cache.Keys
        invariant forall g :: g in cache <==> g in was && (g in todo || Young(was[g], now))
        invariant forall g | g in cache :: cache[g] == was[g]
        decreases |todo|
      {
        var g :| g in todo;
        todo := todo - {g};
        if now - cache[g].at >= TTL { cache := cache - {g}; }
      }
    }

    method OldestEntry() returns (oldest: nat)
      requires cache != map[]
      ensures Oldest(cache, oldest)
    {
      var oldestAt: nat := 0;
      oldest := 0;
      var todo := cache.Keys;
      while todo != {}
        invariant todo <= cache.Keys
        invariant oldestAt == 0 <==> todo == cache.Keys
        invariant oldestAt != 0 ==> oldest in cache && cache[oldest].at == oldestAt
        invariant forall g | g in cache && g !in todo :: oldestAt <= cache[g].at
        decreases |todo|
      {
        var g :| g in todo;
        todo := todo - {g};
        if oldestAt == 0 || cache[g].at < oldestAt { oldest, oldestAt := g, cache[g].at; }
      }
    }

    // A discovery is remembered; an oldest entry makes room for it.
    method RememberModels(now: Clock, g: nat, names: seq<string>, routes: map<string, ModelRoute>)
      returns (ghost victim: nat)
      requires Valid() && CachedModels(names, now, routes).Closed()
      modifies this
      ensures Valid() && history == old(history) + [Remember(g, CachedModels(names, now, routes), victim)]
    {
      victim := 0;
      PruneModelCache(now);
      if g !in cache && |cache| >= CAPACITY {
        var oldest := OldestEntry();
        victim := oldest;
        cache := cache - {oldest};
      }
      cache := cache[g := CachedModels(names, now, routes)];
      history := history + [Remember(g, CachedModels(names, now, routes), victim)];
    }

    method DoWork(work: Op) returns (ghost op: Op)
      requires Valid() && (work.Remember? ==> work.entry.Closed())
      modifies this
      ensures Valid() && history == old(history) + [op] && SameOp(op, work)
    {
      match work
      case Look(now) =>
        op := work;
        PruneModelCache(now);
        history := history + [Look(now)];
        assert history[..|history| - 1] == old(history);
      case Remember(g, entry, _) =>
        ghost var victim := RememberModels(entry.at, g, entry.models, entry.routes);
        op := Remember(g, entry, victim);
    }

    // The lock is not held: other requests do their sections. Whom they drop to make room
    // is settled when it happens.
    method LetOthers(work: seq<Op>) returns (ghost ops: seq<Op>)
      requires Valid() && Storable(work)
      modifies this
      ensures Valid() && history == old(history) + ops && SameWork(ops, work)
    {
      ops := [];
      for i := 0 to |work|
        invariant Valid() && history == old(history) + ops && |ops| == i
        invariant forall k | 0 <= k < i :: SameOp(ops[k], work[k])
      {
        ghost var op := DoWork(work[i]);
        ops := ops + [op];
      }
    }

    // From the cache if it is young, else by discovery; lists is None when that fails.
    method ModelNames(now: Clock, later: Clock, g: nat, lists: Option<Offers>, work: seq<Op>)
      returns (names: Result<seq<string>, RouteError>, ghost during: seq<Op>, ghost d: Discovery)
      requires Valid() && Storable(work)
      modifies this
      ensures Valid()
      ensures AskNames(old(history), g, now, during, d) == Asked(history, names)
      ensures during == [] || SameWork(during, work)
      ensures d.Undiscovered? ==> d.error == (if lists.None? then DiscoveryFailed else NoModels)
      ensures d.Discovered? ==> d.entry.at == later && d.entry.Closed()
    {
      d, during := Undiscovered(if lists.None? then DiscoveryFailed else NoModels), [];
      PruneModelCache(now);
      history := history + [Look(now)];
      assert history[..|history| - 1] == old(history);
      ServesLatest(history, now, g);
      if g in cache && cache[g].models != [] { return Ok(cache[g].models), during, d; }
      during := LetOthers(work);
      if lists.None? { return Err(DiscoveryFailed), during, d; }
      var routes, found := Discover(lists.value);
      if found == [] { return Err(NoModels), during, d; }
      ghost var victim := RememberModels(later, g, found, routes);
      d := Discovered(CachedModels(found, later, routes), victim);
      return Ok(found), during, d;
    }

    // A route from a young entry, or from what is there after asking for the names.
    method ResolveRoute(now: Clock, look: Clock, later: Clock, g: nat, model: string, lists: Option<Offers>,
                        work: Others)
      returns (route: Result<ModelRoute, RouteError>, ghost others: Others, ghost d: Discovery)
      requires Valid() && Storable(work.before) && Storable(work.during) && Storable(work.after)
      modifies this
      ensures Valid()
      ensures AskRoute(old(history), g, model, now, look, others, d) == Asked(history, route)
      ensures d.Undiscovered? ==> d.error == (if lists.None? then DiscoveryFailed else NoModels)
      ensures d.Discovered? ==> d.entry.at == later && d.entry.Closed()
    {
      d, others := Undiscovered(if lists.None? then DiscoveryFailed else NoModels), NOBODY;
      if g in cache && model in cache[g].routes && now - cache[g].at < TTL {
        return Ok(cache[g].routes[model]), others, d;
      }
      ghost var before := LetOthers(work.before);
      var names;
      ghost var during;
      names, during, d := ModelNames(look, later, g, lists, work.during);
      others := Others(before, during, []);
      if names.Err? { return Err(names.error), others, d; }
      ghost var after := LetOthers(work.after);
      others := Others(before, during, after);
      if g !in cache || model !in cache[g].routes { return Err(NotAvailable), others, d; }
      return Ok(cache[g].routes[model]), others, d;
    }
  }
}
