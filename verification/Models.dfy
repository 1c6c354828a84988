// Model discovery (models.go): routes and names from the configurations the account
// offers, whatever order Go's map iteration takes.
module Models {
  import opened Wrappers
  import opened Text

  datatype ModelDetail = ModelDetail(name: string, maxTokens: nat)

  datatype ModelConfig = ModelConfig(
    name: string, usage: string, enabled: bool, custom: bool, details: seq<ModelDetail>, devWindow: nat, maxWindow: nat)
  {
    predicate Available() {
      name != "" && !CustomName(name) && enabled && !custom && (usage == "" || usage == "chat_completion")
    }

    // The first detail whose name ends in the suffix.
    function Detail(suffix: string): Option<ModelDetail> {
      DetailIn(details, suffix)
    }
  }

  datatype ModelEntry = ModelEntry(mode: string, config: ModelConfig)

  datatype ModelRoute = ModelRoute(mode: string, name: string, base: string, most: nat, window: nat)

  type Entries = map<string, seq<ModelEntry>>

  const CHAT_FUNCTIONS := ["chat_v3", "solo_work_lite", "solo_agent", "solo_agent_lite"]
  const CUSTOM := "custom_model"
  const DEV := "__dev"
  const MAX := "__max"
  const MAX_SUFFIX := "-max"

  predicate CustomName(name: string) {
    |CUSTOM| <= |name| && forall i | 0 <= i < |CUSTOM| :: Lower(name[i]) == CUSTOM[i]
  }

  predicate HasSuffix(s: string, suffix: string) {
    |suffix| <= |s| && s[|s| - |suffix|..] == suffix
  }

  function DetailIn(details: seq<ModelDetail>, suffix: string): Option<ModelDetail> {
    if details == [] then None
    else if HasSuffix(details[0].name, suffix) then Some(details[0])
    else DetailIn(details[1..], suffix)
  }

  // ---------- What the account offers ----------

  // The available models of one chat function, in the order listed.
  function Offered(mode: string, list: seq<ModelConfig>): seq<ModelEntry> {
    if list == [] then [] else
      Offered(mode, list[..|list| - 1]) +
      (if list[|list| - 1].Available() then [ModelEntry(mode, list[|list| - 1])] else [])
  }

  // The entries that bear a name, in order.
  function Named(entries: seq<ModelEntry>, id: string): seq<ModelEntry> {
    if entries == [] then [] else
      Named(entries[..|entries| - 1], id)
        + (if entries[|entries| - 1].config.name == id then [entries[|entries| - 1]] else [])
  }

  // All chat functions in their fixed order.
  function AllOffered(lists: map<string, seq<ModelConfig>>, modes: seq<string>): seq<ModelEntry> {
    if modes == [] then [] else
      var mode := modes[|modes| - 1];
      AllOffered(lists, modes[..|modes| - 1]) + Offered(mode, if mode in lists then lists[mode] else [])
  }

  ghost predicate Grouped(entries: Entries, offered: seq<ModelEntry>, id: string) {
    if id in entries then entries[id] != [] && entries[id] == Named(offered, id) else Named(offered, id) == []
  }

  ghost predicate Groups(entries: Entries, offered: seq<ModelEntry>) {
    forall id :: Grouped(entries, offered, id)
  }

  method CollectEntries(lists: map<string, seq<ModelConfig>>) returns (entries: Entries)
    ensures Groups(entries, AllOffered(lists, CHAT_FUNCTIONS))
  {
    entries := map[];
    for i := 0 to |CHAT_FUNCTIONS|
      invariant Groups(entries, AllOffered(lists, CHAT_FUNCTIONS[..i]))
    {
      var mode := CHAT_FUNCTIONS[i];
      var list := if mode in lists then lists[mode] else [];
      ghost var before := AllOffered(lists, CHAT_FUNCTIONS[..i]);
      assert before + Offered(mode, list[..0]) == before;
      for j := 0 to |list|
        invariant Groups(entries, before + Offered(mode, list[..j]))
      {
        var m := list[j];
        ghost var offered := before + Offered(mode, list[..j]);
        assert list[..j + 1][..j] == list[..j];
        if m.Available() {
          GroupsGrow(entries, offered, ModelEntry(mode, m));
          entries := entries[m.name := (if m.name in entries then entries[m.name] else []) + [ModelEntry(mode, m)]];
          assert before + Offered(mode, list[..j + 1]) == offered + [ModelEntry(mode, m)];
        } else {
          assert before + Offered(mode, list[..j + 1]) == offered;
        }
      }
      assert list[..|list|] == list;
      assert CHAT_FUNCTIONS[..i + 1][..i] == CHAT_FUNCTIONS[..i];
    }
    assert CHAT_FUNCTIONS[..|CHAT_FUNCTIONS|] == CHAT_FUNCTIONS;
  }

  lemma GroupsGrow(entries: Entries, offered: seq<ModelEntry>, e: ModelEntry)
    requires Groups(entries, offered)
    ensures var name := e.config.name;
            Groups(entries[name := (if name in entries then entries[name] else []) + [e]], offered + [e])
  {
    var name := e.config.name;
    assert (offered + [e])[..|offered|] == offered;
    var more := entries[name := (if name in entries then entries[name] else []) + [e]];
    forall id ensures Grouped(more, offered + [e], id) {
      assert Grouped(entries, offered, id);
    }
  }

  // ---------- Routes ----------

  function Chosen(group: seq<ModelEntry>): ModelEntry
    requires group != []
  {
    match FirstDev(group)
    case Some(e) => e
    case None => group[0]
  }

  function FirstDev(group: seq<ModelEntry>): Option<ModelEntry> {
    if group == [] then None
    else if group[0].config.Detail(DEV).Some? then Some(group[0])
    else FirstDev(group[1..])
  }

  function BaseRoute(id: string, group: seq<ModelEntry>): ModelRoute
    requires group != []
  {
    var chosen := Chosen(group);
    match chosen.config.Detail(DEV)
    case Some(dev) => ModelRoute(chosen.mode, dev.name, id, dev.maxTokens, 0)
    case None => ModelRoute(chosen.mode, "", id, 0, 0)
  }

  // The first window that is given, an entry's own coming first.
  function MaxWindow(sources: seq<ModelEntry>): nat {
    if sources == [] then 0 else if sources[0].config.maxWindow != 0 then sources[0].config.maxWindow
      else MaxWindow(sources[1..])
  }

  function DevWindow(sources: seq<ModelEntry>): nat {
    if sources == [] then 0 else if sources[0].config.devWindow != 0 then sources[0].config.devWindow
      else DevWindow(sources[1..])
  }

  predicate Larger(e: ModelEntry, group: seq<ModelEntry>) {
    e.config.Detail(MAX).Some? && MaxWindow([e] + group) > DevWindow([e] + group)
  }

  // The first entry with a larger window, from k on.
  function FirstLarger(group: seq<ModelEntry>, k: nat): Option<ModelEntry>
    requires k <= |group|
    decreases |group| - k
  {
    if k == |group| then None else if Larger(group[k], group) then Some(group[k]) else FirstLarger(group, k + 1)
  }

  lemma FirstLargerIsLarger(group: seq<ModelEntry>, k: nat)
    requires k <= |group|
    ensures var e := FirstLarger(group, k);
            && (e.Some? ==> e.value in group && Larger(e.value, group))
            && (e.None? <==> forall i | k <= i < |group| :: !Larger(group[i], group))
    decreases |group| - k
  {}

  function MaxRoute(id: string, e: ModelEntry, group: seq<ModelEntry>): ModelRoute
    requires e.config.Detail(MAX).Some?
  {
    var max := e.config.Detail(MAX).value;
    ModelRoute(e.mode, max.name, id, max.maxTokens, MaxWindow([e] + group))
  }

  function MaxKey(id: string): string {
    id + MAX_SUFFIX
  }

  // A model gets a max route unless a real model has that name.
  predicate Extended(entries: Entries, id: string) {
    id in entries && MaxKey(id) !in entries && FirstLarger(entries[id], 0).Some?
  }

  function Written(entries: Entries, ids: set<string>): set<string> {
    ids + set id | id in ids && Extended(entries, id) :: MaxKey(id)
  }

  function BaseOf(key: string): string {
    if |MAX_SUFFIX| <= |key| then key[..|key| - |MAX_SUFFIX|] else key
  }

  lemma BaseOfMax(id: string)
    ensures BaseOf(MaxKey(id)) == id
  {}

  predicate WellGrouped(entries: Entries) {
    forall id | id in entries :: entries[id] != []
  }

  // What a key of the table leads to, whatever order built it.
  predicate Leads(entries: Entries, key: string, route: ModelRoute) {
    if key in entries then entries[key] != [] && route == BaseRoute(key, entries[key])
    else
      var id := BaseOf(key);
      && id in entries
      && FirstLarger(entries[id], 0).Some?
      && FirstLarger(entries[id], 0).value.config.Detail(MAX).Some?
      && route == MaxRoute(id, FirstLarger(entries[id], 0).value, entries[id])
  }

  ghost predicate IsTable(entries: Entries, ids: set<string>, routes: map<string, ModelRoute>) {
    routes.Keys == Written(entries, ids) && Correct(entries, routes)
  }

  ghost predicate Correct(entries: Entries, routes: map<string, ModelRoute>) {
    forall key {:trigger Leads(entries, key, routes[key])} | key in routes :: Leads(entries, key, routes[key])
  }

  lemma CorrectMore(entries: Entries, routes: map<string, ModelRoute>, key: string, route: ModelRoute)
    requires Correct(entries, routes) && Leads(entries, key, route)
    ensures Correct(entries, routes[key := route])
  {
    var more := routes[key := route];
    forall k | k in more ensures Leads(entries, k, more[k]) {
      if k != key { assert Leads(entries, k, routes[k]); }
    }
  }

  // Two tables of the same entries are equal: no iteration order shows.
  lemma TableIsUnique(entries: Entries, a: map<string, ModelRoute>, b: map<string, ModelRoute>)
    requires IsTable(entries, entries.Keys, a) && IsTable(entries, entries.Keys, b)
    ensures a == b
  {
    forall key | key in a ensures key in b && a[key] == b[key] {
      assert key in Written(entries, entries.Keys);
      assert Leads(entries, key, a[key]) && Leads(entries, key, b[key]);
    }
    assert a.Keys == b.Keys;
  }

  method ChooseEntry(group: seq<ModelEntry>) returns (chosen: ModelEntry)
    requires group != []
    ensures chosen == Chosen(group)
  {
    chosen := group[0];
    for i := 0 to |group|
      invariant chosen == group[0] && FirstDev(group) == FirstDev(group[i..])
    {
      if group[i].config.Detail(DEV).Some? { return group[i]; }
    }
  }

  method DefaultRoute(id: string, group: seq<ModelEntry>) returns (route: ModelRoute)
    requires group != []
    ensures route == BaseRoute(id, group)
  {
    var chosen := ChooseEntry(group);
    route := ModelRoute(chosen.mode, "", id, 0, 0);
    var dev := chosen.config.Detail(DEV);
    if dev.Some? { route := route.(name := dev.value.name, most := dev.value.maxTokens); }
  }

  method Windows(entry: ModelEntry, group: seq<ModelEntry>) returns (window: nat, devWindow: nat)
    ensures window == MaxWindow([entry] + group) && devWindow == DevWindow([entry] + group)
  {
    window, devWindow := 0, 0;
    var sources := [entry] + group;
    for i := 0 to |sources|
      invariant MaxWindow(sources) == if window != 0 then window else MaxWindow(sources[i..])
      invariant DevWindow(sources) == if devWindow != 0 then devWindow else DevWindow(sources[i..])
    {
      if window == 0 { window := sources[i].config.maxWindow; }
      if devWindow == 0 { devWindow := sources[i].config.devWindow; }
    }
  }

  method LargerRoute(id: string, group: seq<ModelEntry>) returns (route: Option<ModelRoute>)
    ensures match FirstLarger(group, 0)
            case None => route == None
            case Some(e) => e.config.Detail(MAX).Some? && route == Some(MaxRoute(id, e, group))
  {
    for i := 0 to |group|
      invariant FirstLarger(group, 0) == FirstLarger(group, i)
    {
      var max := group[i].config.Detail(MAX);
      if max.Some? {
        var window, devWindow := Windows(group[i], group);
        if window > devWindow && window > 0 {
          return Some(ModelRoute(group[i].mode, max.value.name, id, max.value.maxTokens, window));
        }
      }
    }
    return None;
  }

  // Each key once, in some order.
  ghost predicate Lists(names: seq<string>, keys: set<string>) {
    multiset(names) == multiset(keys)
  }

  lemma ListsMore(names: seq<string>, routes: map<string, ModelRoute>, key: string, route: ModelRoute)
    requires Lists(names, routes.Keys) && key !in routes
    ensures Lists(names + [key], routes[key := route].Keys)
  {
    assert routes[key := route].Keys == routes.Keys + {key};
  }

  // The loop over the entries takes them in any order whatever.
  method BuildRoutes(entries: Entries) returns (routes: map<string, ModelRoute>, names: seq<string>)
    requires WellGrouped(entries)
    ensures IsTable(entries, entries.Keys, routes)
    ensures Lists(names, routes.Keys)
  {
    routes, names := map[], [];
    var todo := entries.Keys;
    ghost var done := {};
    while todo != {}
      invariant todo + done == entries.Keys && todo !! done
      invariant IsTable(entries, done, routes)
      invariant Lists(names, routes.Keys)
      decreases |todo|
    {
      var id :| id in todo;
      Taken(entries.Keys, todo, done, id);
      todo := todo - {id};
      var route, max := ModelRoutes(entries, id);
      TableGrows(entries, done, id, routes, route, max);
      ListGrows(entries, done, id, routes, names, route, max);
      routes := routes[id := route];
      names := names + [id];
      if max.Some? {
        routes := routes[MaxKey(id) := max.value];
        names := names + [MaxKey(id)];
      }
      done := done + {id};
    }
  }

  lemma Taken(all: set<string>, todo: set<string>, done: set<string>, id: string)
    requires todo + done == all && todo !! done && id in todo
    ensures (todo - {id}) + (done + {id}) == all && todo - {id} !! done + {id}
  {}

  // One model's own route, and the max route it adds.
  method ModelRoutes(entries: Entries, id: string) returns (route: ModelRoute, max: Option<ModelRoute>)
    requires id in entries && entries[id] != []
    ensures Fits(entries, id, route, max)
  {
    route := DefaultRoute(id, entries[id]);
    max := None;
    if MaxKey(id) !in entries {
      BaseOfMax(id);
      max := LargerRoute(id, entries[id]);
    }
  }

  // The table after one more model.
  function WithModel(routes: map<string, ModelRoute>, id: string, route: ModelRoute,
                     max: Option<ModelRoute>): map<string, ModelRoute> {
    if max.Some? then routes[id := route][MaxKey(id) := max.value] else routes[id := route]
  }

  ghost predicate Fits(entries: Entries, id: string, route: ModelRoute, max: Option<ModelRoute>) {
    && Leads(entries, id, route)
    && (max.Some? <==> Extended(entries, id))
    && (max.Some? ==> Leads(entries, MaxKey(id), max.value))
  }

  lemma TableGrows(entries: Entries, ids: set<string>, id: string, routes: map<string, ModelRoute>, route: ModelRoute,
                   max: Option<ModelRoute>)
    requires IsTable(entries, ids, routes)
    requires ids <= entries.Keys && id in entries && id !in ids && Fits(entries, id, route, max)
    ensures IsTable(entries, ids + {id}, WithModel(routes, id, route, max))
  {
    WrittenMore(entries, ids, id);
    CorrectMore(entries, routes, id, route);
    if max.Some? { CorrectMore(entries, routes[id := route], MaxKey(id), max.value); }
    KeysGrow(routes, id, route, max);
  }

  lemma KeysGrow(routes: map<string, ModelRoute>, id: string, route: ModelRoute, max: Option<ModelRoute>)
    ensures WithModel(routes, id, route, max).Keys == routes.Keys + {id} + (if max.Some? then {MaxKey(id)} else {})
  {}

  lemma ListGrows(entries: Entries, ids: set<string>, id: string, routes: map<string, ModelRoute>, names: seq<string>,
                  route: ModelRoute, max: Option<ModelRoute>)
    requires IsTable(entries, ids, routes) && Lists(names, routes.Keys)
    requires ids <= entries.Keys && id in entries && id !in ids && Fits(entries, id, route, max)
    ensures Lists(names + [id] + (if max.Some? then [MaxKey(id)] else []), WithModel(routes, id, route, max).Keys)
  {
    Unwritten(entries, ids, id);
    ListsMore(names, routes, id, route);
    if max.Some? {
      BaseOfMax(id);
      ListsMore(names + [id], routes[id := route], MaxKey(id), max.value);
    }
  }

  // No two models write the same key.
  lemma Unwritten(entries: Entries, ids: set<string>, id: string)
    requires ids <= entries.Keys && id in entries && id !in ids
    ensures id !in Written(entries, ids)
    ensures MaxKey(id) !in entries ==> MaxKey(id) !in Written(entries, ids)
  {
    BaseOfMax(id);
    forall other | other in ids && Extended(entries, other) ensures MaxKey(other) != id && MaxKey(other) != MaxKey(id) {
      BaseOfMax(other);
    }
  }

  lemma WrittenMore(entries: Entries, ids: set<string>, id: string)
    requires id in entries
    ensures Written(entries, ids + {id}) == Written(entries, ids) + {id}
            + (if Extended(entries, id) then {MaxKey(id)} else {})
  {}

  // Every route that is no real model's is some model's larger window.
  lemma MaxRoutesAreLarger(entries: Entries, routes: map<string, ModelRoute>, key: string)
    requires WellGrouped(entries) && IsTable(entries, entries.Keys, routes)
    ensures key in routes <==> key in entries || exists id :: key == MaxKey(id) && Extended(entries, id)
    ensures key in routes && key !in entries ==>
              var r := routes[key];
              && key == MaxKey(r.base) && r.base in entries
              && exists e ::
                   e in entries[r.base]
                   && r.window == MaxWindow([e] + entries[r.base]) > DevWindow([e] + entries[r.base])
    ensures key in entries ==> routes[key].base == key && routes[key].window == 0
  {
    if key in routes && key !in entries {
      assert key in Written(entries, entries.Keys);
      var id :| id in entries && Extended(entries, id) && key == MaxKey(id);
      BaseOfMax(id);
      assert Leads(entries, key, routes[key]);
      FirstLargerIsLarger(entries[id], 0);
      assert FirstLarger(entries[id], 0).value in entries[id];
    }
    if key in entries { assert Leads(entries, key, routes[key]); }
  }

  // ---------- Names ----------

  // The byte order of UTF-8, which is the order of code points.
  predicate Below(a: string, b: string) {
    b != [] && (a == [] || a[0] < b[0] || (a[0] == b[0] && Below(a[1..], b[1..])))
  }

  lemma {:induction false} BelowOrders(a: string, b: string)
    ensures Below(a, b) || Below(b, a) || a == b
    ensures !(Below(a, b) && Below(b, a)) && !Below(a, a)
  {
    if a != [] && b != [] {
      BelowOrders(a[1..], b[1..]);
      if a[0] == b[0] && a[1..] == b[1..] { assert a == [a[0]] + a[1..] && b == [b[0]] + b[1..]; }
    }
    if a != [] { BelowOrders(a[1..], a[1..]); }
  }

  lemma {:induction false} BelowChains(a: string, b: string, c: string)
    requires Below(a, b) && Below(b, c)
    ensures Below(a, c)
  {
    if a != [] && a[0] == b[0] && b[0] == c[0] { BelowChains(a[1..], b[1..], c[1..]); }
  }

  predicate Ascending(names: seq<string>) {
    forall i, j | 0 <= i < j < |names| :: Below(names[i], names[j])
  }

  function Insert(names: seq<string>, name: string): (r: seq<string>)
    ensures multiset(r) == multiset(names) + multiset{name}
  {
    if names == [] then [name]
    else
      assert names == [names[0]] + names[1..];
      if Below(name, names[0]) then [name] + names else [names[0]] + Insert(names[1..], name)
  }

  // sort.Strings
  function Sort(names: seq<string>): (r: seq<string>)
    ensures multiset(r) == multiset(names)
  {
    if names == [] then [] else
      assert names == names[..|names| - 1] + [names[|names| - 1]];
      Insert(Sort(names[..|names| - 1]), names[|names| - 1])
  }

  lemma {:induction false} InsertAscends(names: seq<string>, name: string)
    requires Ascending(names) && name !in names
    ensures Ascending(Insert(names, name))
  {
    if names != [] {
      BelowOrders(name, names[0]);
      if Below(name, names[0]) {
        forall j | 0 <= j < |names| ensures Below(name, names[j]) {
          if j > 0 { BelowChains(name, names[0], names[j]); }
        }
      } else {
        InsertAscends(names[1..], name);
        InsertHas(names[1..], name);
        var rest := Insert(names[1..], name);
        forall j | 0 <= j < |rest| ensures Below(names[0], rest[j]) {
          if rest[j] != name { assert rest[j] in names[1..]; }
        }
      }
    }
  }

  lemma InsertHas(names: seq<string>, name: string)
    ensures forall n | n in Insert(names, name) :: n == name || n in names
  {
    forall n | n in Insert(names, name) ensures n == name || n in names {
      assert n in multiset(Insert(names, name));
    }
  }

  lemma {:induction false} SortAscends(names: seq<string>)
    requires forall i, j | 0 <= i < j < |names| :: names[i] != names[j]
    ensures Ascending(Sort(names))
  {
    if names != [] {
      var init := names[..|names| - 1];
      SortAscends(init);
      forall name | name in Sort(init) ensures name in init { assert name in multiset(Sort(init)); }
      InsertAscends(Sort(init), names[|names| - 1]);
    }
  }

  // There is only one ascending listing of a set.
  lemma {:induction false} ListingIsUnique(a: seq<string>, b: seq<string>)
    requires Ascending(a) && Ascending(b) && multiset(a) == multiset(b)
    ensures a == b
  {
    assert |a| == |multiset(a)| == |multiset(b)| == |b|;
    if a != [] {
      HeadIsLeast(a, b);
      HeadIsLeast(b, a);
      BelowOrders(a[0], b[0]);
      assert a == [a[0]] + a[1..] && b == [b[0]] + b[1..];
      assert multiset(a[1..]) == multiset(a) - multiset{a[0]};
      assert multiset(b[1..]) == multiset(b) - multiset{b[0]};
      ListingIsUnique(a[1..], b[1..]);
    }
  }

  lemma HeadIsLeast(a: seq<string>, b: seq<string>)
    requires a != [] && b != [] && Ascending(a) && multiset(a) == multiset(b)
    ensures a[0] == b[0] || Below(a[0], b[0])
  {
    assert b[0] in multiset(b);
    assert b[0] in a;
  }

  lemma CountedTwice(names: seq<string>, i: nat, j: nat)
    requires i < j < |names| && names[i] == names[j]
    ensures multiset(names)[names[i]] >= 2
  {
    assert names == names[..j] + names[j..];
    assert names[i] in names[..j] && names[i] in names[j..];
    assert multiset(names) == multiset(names[..j]) + multiset(names[j..]);
  }

  lemma DistinctListing(names: seq<string>, keys: set<string>)
    requires Lists(names, keys)
    ensures forall i, j | 0 <= i < j < |names| :: names[i] != names[j]
    ensures forall name :: name in names <==> name in keys
  {
    forall i, j | 0 <= i < j < |names| ensures names[i] != names[j] {
      if names[i] == names[j] { CountedTwice(names, i, j); }
    }
    forall name ensures name in names <==> name in keys {
      assert name in names <==> name in multiset(names);
    }
  }

  lemma NothingListed(names: seq<string>, keys: set<string>)
    requires Lists(names, keys)
    ensures names == [] <==> keys == {}
  {
    if names != [] { assert names[0] in multiset(names); }
    if k :| k in keys { assert k in multiset(keys); assert k in multiset(names); }
  }

  lemma NothingOffered(offered: seq<ModelEntry>, entries: Entries)
    requires Groups(entries, offered)
    ensures offered == [] <==> entries.Keys == {}
    ensures WellGrouped(entries)
  {
    forall id | id in entries ensures entries[id] != [] { assert Grouped(entries, offered, id); }
    if offered != [] { assert Grouped(entries, offered, offered[|offered| - 1].config.name); }
    if id :| id in entries { assert Grouped(entries, offered, id); }
  }

  lemma SortLists(names: seq<string>, keys: set<string>)
    requires Lists(names, keys)
    ensures Ascending(Sort(names)) && Lists(Sort(names), keys)
  {
    DistinctListing(names, keys);
    SortAscends(names);
  }

  // Discovery as a whole: the table of routes and their names in ascending order,
  // each once. An account without available models is an error.
  method Discover(lists: map<string, seq<ModelConfig>>) returns (routes: map<string, ModelRoute>, names: seq<string>)
    ensures names == [] <==> AllOffered(lists, CHAT_FUNCTIONS) == []
    ensures exists entries ::
              Groups(entries, AllOffered(lists, CHAT_FUNCTIONS)) && IsTable(entries, entries.Keys, routes)
    ensures Ascending(names) && Lists(names, routes.Keys)
  {
    var entries := CollectEntries(lists);
    NothingOffered(AllOffered(lists, CHAT_FUNCTIONS), entries);
    routes, names := BuildRoutes(entries);
    SortLists(names, routes.Keys);
    names := Sort(names);
    NothingListed(names, routes.Keys);
    assert entries.Keys <= Written(entries, entries.Keys);
  }

  lemma GroupsAreUnique(offered: seq<ModelEntry>, entries: Entries, others: Entries)
    requires Groups(entries, offered) && Groups(others, offered)
    ensures entries == others
  {
    forall id ensures (id in entries <==> id in others) && (id in entries ==> entries[id] == others[id]) {
      assert Grouped(entries, offered, id) && Grouped(others, offered, id);
    }
  }

  // Whatever the orders taken, discovery finds the same names and routes.
  lemma {:induction false} DiscoveryIsDeterministic(offered: seq<ModelEntry>, entries: Entries, others: Entries,
                                 routes: map<string, ModelRoute>, names: seq<string>,
                                 otherRoutes: map<string, ModelRoute>, otherNames: seq<string>)
    requires Groups(entries, offered) && Groups(others, offered)
    requires IsTable(entries, entries.Keys, routes) && IsTable(others, others.Keys, otherRoutes)
    requires Ascending(names) && Lists(names, routes.Keys)
    requires Ascending(otherNames) && Lists(otherNames, otherRoutes.Keys)
    ensures routes == otherRoutes && names == otherNames
  {
    GroupsAreUnique(offered, entries, others);
    TableIsUnique(entries, routes, otherRoutes);
    ListingIsUnique(names, otherNames);
  }
}
