/** Trust levels of peers (security/trust.go): first-use trust with expiry, explicit levels,
    removal, cleaning, import, and the change callback. */
module TrustStore {
  import opened Basics
  import R = Reputation

  const UNKNOWN := 0
  const TOFU := 1
  const VERIFIED := 2
  const BLOCKED := 3
  const PINNED := 4

  const TOFU_EXPIRY := 30 * 24 * HOUR

  /** expiresAt is None for the zero time. */
  datatype Entry = Entry(publicKey: string, level: int, firstSeen: string, lastSeen: string, alias: string,
                         expiresAt: Option<int>, wasBlocked: bool)

  const BLANK := Entry("", UNKNOWN, "", "", "", None, false)

  type Store = map<string, Entry>

  /** One call of the change callback. */
  datatype Event = Event(key: string, before: int, after: int)

  // ---- The operations as functions -------------------------------------------------------

  predicate ValidTransition(before: int, after: int) {
    if before == after then true
    else if before == UNKNOWN then true
    else if before == TOFU then after == VERIFIED || after == BLOCKED
    else if before == VERIFIED then after == PINNED || after == BLOCKED
    else if before == PINNED then after == BLOCKED
    else if before == BLOCKED then after == UNKNOWN
    else false
  }

  predicate Expired(e: Entry, now: int) {
    e.level == TOFU && e.expiresAt.Some? && now > e.expiresAt.value
  }

  function Lookup(s: Store, key: string): Entry {
    if key in s then s[key] else BLANK
  }

  /** The level a check reports. */
  function LevelAt(s: Store, key: string, now: int): int {
    if key in s && !Expired(s[key], now) then s[key].level else UNKNOWN
  }

  predicate Allowed(s: Store, key: string, now: int) {
    var level := LevelAt(s, key, now);
    level == TOFU || level == VERIFIED || level == PINNED
  }

  predicate AllowedWithReputation(s: Store, key: string, now: int, scores: Option<R.Store>) {
    Allowed(s, key, now) && !(scores.Some? && R.Malicious(scores.value, key))
  }

  function ExpiredKeys(s: Store, now: int): set<string> {
    set k | k in s && Expired(s[k], now)
  }

  predicate Importable(entries: Store) {
    forall k :: k in entries ==> UNKNOWN <= entries[k].level <= PINNED
  }

  function NewKeys(s: Store, entries: Store): set<string> {
    entries.Keys - s.Keys
  }

  /** Cleaning and importing visit a map, in an order left open; order lists the keys acted on. */
  datatype Action =
    | FirstUse(key: string, firstSeen: string, at: int)
    | SetTrust(key: string, level: int)
    | TouchLastSeen(key: string, seen: string)
    | SetAlias(key: string, alias: string)
    | RemoveEntry(key: string)
    | CleanExpired(at: int, order: seq<string>)
    | Import(entries: Store, order: seq<string>)

  predicate Listing(order: seq<string>, keys: set<string>) {
    if order == [] then keys == {}
    else order[0] in keys && Listing(order[1..], keys - {order[0]})
  }

  predicate Possible(s: Store, act: Action) {
    match act
    case CleanExpired(at, order) => Listing(order, ExpiredKeys(s, at))
    case Import(entries, order) => Importable(entries) ==> Listing(order, NewKeys(s, entries))
    case _ => true
  }

  function Leveled(e: Entry, key: string, level: int): Entry {
    e.(publicKey := key, level := level, wasBlocked := e.wasBlocked || level == BLOCKED)
  }

  function Next(s: Store, act: Action): Store {
    match act
    case FirstUse(key, firstSeen, at) =>
      if key in s then s else s[key := Entry(key, TOFU, firstSeen, "", "", Some(at + TOFU_EXPIRY), false)]
    case SetTrust(key, level) =>
      if ValidTransition(Lookup(s, key).level, level) then s[key := Leveled(Lookup(s, key), key, level)] else s
    case TouchLastSeen(key, seen) => if key in s then s[key := s[key].(lastSeen := seen)] else s
    case SetAlias(key, alias) => if key in s then s[key := s[key].(alias := alias)] else s
    case RemoveEntry(key) => s - {key}
    case CleanExpired(at, _) => s - ExpiredKeys(s, at)
    case Import(entries, _) => if Importable(entries) then entries + s else s
  }

  function Departures(s: Store, order: seq<string>): seq<Event>
    decreases |order|
  {
    if order == [] then []
    else [Event(order[0], Lookup(s, order[0]).level, UNKNOWN)] + Departures(s - {order[0]}, order[1..])
  }

  function Arrivals(entries: Store, order: seq<string>): seq<Event> {
    if order == [] then []
    else [Event(order[0], UNKNOWN, Lookup(entries, order[0]).level)] + Arrivals(entries, order[1..])
  }

  /** The callbacks an action makes. */
  function Emitted(s: Store, act: Action): seq<Event> {
    match act
    case FirstUse(key, _, _) => if key in s then [] else [Event(key, UNKNOWN, TOFU)]
    case SetTrust(key, level) =>
      var before := Lookup(s, key).level;
      if ValidTransition(before, level) && before != level then [Event(key, before, level)] else []
    case RemoveEntry(key) => if key in s then [Event(key, s[key].level, UNKNOWN)] else []
    case CleanExpired(_, order) => Departures(s, order)
    case Import(entries, order) => if Importable(entries) then Arrivals(entries, order) else []
    case _ => []
  }

  // ---- Listings grow at the end ----------------------------------------------------------

  lemma {:induction false} ListingAppend(order: seq<string>, keys: set<string>, k: string)
    requires Listing(order, keys) && k !in keys
    ensures Listing(order + [k], keys + {k})
  {
    if order == [] {
      assert [k][1..] == [] && keys + {k} - {k} == {};
    } else {
      assert (order + [k])[1..] == order[1..] + [k];
      assert keys + {k} - {order[0]} == keys - {order[0]} + {k};
      ListingAppend(order[1..], keys - {order[0]}, k);
    }
  }

  lemma {:induction false} DeparturesAppend(s: Store, order: seq<string>, keys: set<string>, k: string)
    requires Listing(order, keys) && k !in keys
    ensures Departures(s, order + [k]) == Departures(s, order) + [Event(k, Lookup(s, k).level, UNKNOWN)]
    decreases |order|
  {
    if order == [] {
      assert [k][1..] == [];
    } else {
      assert (order + [k])[1..] == order[1..] + [k];
      DeparturesAppend(s - {order[0]}, order[1..], keys - {order[0]}, k);
    }
  }

  lemma {:induction false} ArrivalsAppend(entries: Store, order: seq<string>, k: string)
    ensures Arrivals(entries, order + [k]) == Arrivals(entries, order) + [Event(k, UNKNOWN, Lookup(entries, k).level)]
  {
    if order == [] {
      assert [k][1..] == [];
    } else {
      assert (order + [k])[1..] == order[1..] + [k];
      ArrivalsAppend(entries, order[1..], k);
    }
  }

  /** Where a merge into a store stands, after the entries outside rest: the new ones among them have
      been adopted, in the given order. */
  ghost predicate Merging(before: Store, entries: Store, rest: set<string>, order: seq<string>,
                          s: Store, start: seq<Event>, log: seq<Event>) {
    && rest <= entries.Keys && Listing(order, NewKeys(before, entries) - rest)
    && s.Keys == before.Keys + (NewKeys(before, entries) - rest)
    && (forall k :: k in s ==> s[k] == if k in before then before[k] else entries[k])
    && log == start + Arrivals(entries, order)
  }

  lemma MergingStart(before: Store, entries: Store, start: seq<Event>)
    ensures Merging(before, entries, entries.Keys, [], before, start, start)
  {
    assert NewKeys(before, entries) - entries.Keys == {};
  }

  lemma MergingNext(before: Store, entries: Store, rest: set<string>, order: seq<string>,
                    s: Store, start: seq<Event>, log: seq<Event>, key: string)
    requires Merging(before, entries, rest, order, s, start, log) && key in rest
    ensures key in s ==> Merging(before, entries, rest - {key}, order, s, start, log)
    ensures key !in s ==>
              Merging(before, entries, rest - {key}, order + [key], s[key := entries[key]],
                      start, log + [Event(key, UNKNOWN, entries[key].level)])
  {
    var came := NewKeys(before, entries) - rest;
    if key in s {
      assert NewKeys(before, entries) - (rest - {key}) == came;
    } else {
      assert NewKeys(before, entries) - (rest - {key}) == came + {key};
      ListingAppend(order, came, key);
      ArrivalsAppend(entries, order, key);
    }
  }

  lemma Merged(before: Store, entries: Store, order: seq<string>, s: Store, start: seq<Event>, log: seq<Event>)
    requires Merging(before, entries, {}, order, s, start, log)
    ensures Listing(order, NewKeys(before, entries)) && s == entries + before && log == start + Arrivals(entries, order)
  {
    assert NewKeys(before, entries) - {} == NewKeys(before, entries);
  }

  /** Where a cleaning stands, after the keys outside rest: the expired ones among them are gone, in the
      given order. */
  ghost predicate Cleaning(before: Store, now: int, rest: set<string>, order: seq<string>,
                           s: Store, start: seq<Event>, log: seq<Event>) {
    && rest <= s.Keys && Listing(order, ExpiredKeys(before, now) - rest)
    && s == before - (ExpiredKeys(before, now) - rest)
    && log == start + Departures(before, order)
  }

  lemma CleaningStart(before: Store, now: int, start: seq<Event>)
    ensures Cleaning(before, now, before.Keys, [], before, start, start)
  {
    assert ExpiredKeys(before, now) - before.Keys == {};
  }

  lemma CleaningNext(before: Store, now: int, rest: set<string>, order: seq<string>,
                     s: Store, start: seq<Event>, log: seq<Event>, key: string)
    requires Cleaning(before, now, rest, order, s, start, log) && key in rest
    ensures !Expired(s[key], now) ==> Cleaning(before, now, rest - {key}, order, s, start, log)
    ensures Expired(s[key], now) ==>
              Cleaning(before, now, rest - {key}, order + [key], s - {key}, start, log + [Event(key, s[key].level, UNKNOWN)])
  {
    var gone := ExpiredKeys(before, now) - rest;
    if Expired(s[key], now) {
      assert ExpiredKeys(before, now) - (rest - {key}) == gone + {key};
      assert s - {key} == before - (gone + {key});
      ListingAppend(order, gone, key);
      DeparturesAppend(before, order, gone, key);
    } else {
      assert ExpiredKeys(before, now) - (rest - {key}) == gone;
    }
  }

  method LevelsInRange(entries: Store) returns (ok: bool)
    ensures ok == Importable(entries)
  {
    var rest := entries.Keys;
    while rest != {}
      invariant rest <= entries.Keys
      invariant forall k :: k in entries && k !in rest ==> UNKNOWN <= entries[k].level <= PINNED
      decreases |rest|
    {
      var key :| key in rest;
      rest := rest - {key};
      if entries[key].level < UNKNOWN || entries[key].level > PINNED {
        return false;
      }
    }
    return true;
  }

  // ---- The store object ------------------------------------------------------------------

  class TrustStore {
    var trusted: Store
    var log: seq<Event>
    var reputation: R.ReputationStore?

    /** The callback is registered at once; log holds its calls. */
    constructor ()
      ensures trusted == map[] && log == [] && reputation == null
    {
      trusted, log, reputation := map[], [], null;
    }

    method Check(key: string, now: int) returns (level: int)
      ensures level == LevelAt(trusted, key, now)
    {
      if key !in trusted {
        return UNKNOWN;
      }
      var entry := trusted[key];
      if entry.level == TOFU && entry.expiresAt.Some? && now > entry.expiresAt.value {
        return UNKNOWN;
      }
      return entry.level;
    }

    method TrustOnFirstUse(key: string, firstSeen: string, now: int) returns (level: int)
      modifies `trusted, `log
      ensures trusted == Next(old(trusted), FirstUse(key, firstSeen, now))
      ensures log == old(log) + Emitted(old(trusted), FirstUse(key, firstSeen, now))
      ensures level == trusted[key].level
    {
      if key in trusted {
        var entry := trusted[key];
        if entry.level == UNKNOWN && entry.wasBlocked {
          return UNKNOWN;
        }
        return entry.level;
      }
      trusted := trusted[key := Entry(key, TOFU, firstSeen, "", "", Some(now + TOFU_EXPIRY), false)];
      log := log + [Event(key, UNKNOWN, TOFU)];
      return TOFU;
    }

    method SetLevel(key: string, level: int) returns (ok: bool)
      modifies `trusted, `log
      ensures trusted == Next(old(trusted), SetTrust(key, level))
      ensures log == old(log) + Emitted(old(trusted), SetTrust(key, level))
      ensures ok == ValidTransition(Lookup(old(trusted), key).level, level)
    {
      var entry := if key in trusted then trusted[key] else BLANK;
      var before := entry.level;
      if !ValidTransition(before, level) {
        return false;
      }
      var firstSeen, expiresAt := entry.firstSeen, entry.expiresAt;
      entry := entry.(publicKey := key, level := level);
      if level == BLOCKED {
        entry := entry.(wasBlocked := true);
      }
      if firstSeen != "" {
        entry := entry.(firstSeen := firstSeen);
      }
      if expiresAt.Some? {
        entry := entry.(expiresAt := expiresAt);
      }
      trusted := trusted[key := entry];
      if before != level {
        log := log + [Event(key, before, level)];
      }
      return true;
    }

    method Touch(key: string, seen: string)
      modifies `trusted
      ensures trusted == Next(old(trusted), TouchLastSeen(key, seen))
    {
      if key in trusted {
        trusted := trusted[key := trusted[key].(lastSeen := seen)];
      }
    }

    method Rename(key: string, alias: string)
      modifies `trusted
      ensures trusted == Next(old(trusted), SetAlias(key, alias))
    {
      if key in trusted {
        trusted := trusted[key := trusted[key].(alias := alias)];
      }
    }

    method Remove(key: string) returns (found: bool)
      modifies `trusted, `log
      ensures trusted == Next(old(trusted), RemoveEntry(key))
      ensures log == old(log) + Emitted(old(trusted), RemoveEntry(key))
      ensures found == (key in old(trusted))
    {
      if key !in trusted {
        assert trusted - {key} == trusted;
        return false;
      }
      var entry := trusted[key];
      trusted := trusted - {key};
      log := log + [Event(key, entry.level, UNKNOWN)];
      return true;
    }

    method Clean(now: int) returns (ghost order: seq<string>)
      modifies `trusted, `log
      ensures Possible(old(trusted), CleanExpired(now, order))
      ensures trusted == Next(old(trusted), CleanExpired(now, order))
      ensures log == old(log) + Emitted(old(trusted), CleanExpired(now, order))
    {
      ghost var before, start := trusted, log;
      order := [];
      var rest := trusted.Keys;
      CleaningStart(before, now, start);
      while rest != {}
        invariant Cleaning(before, now, rest, order, trusted, start, log)
        decreases |rest|
      {
        var key :| key in rest;
        CleaningNext(before, now, rest, order, trusted, start, log, key);
        rest := rest - {key};
        var entry := trusted[key];
        if entry.level == TOFU && entry.expiresAt.Some? && now > entry.expiresAt.value {
          trusted := trusted - {key};
          log := log + [Event(key, entry.level, UNKNOWN)];
          order := order + [key];
        }
      }
      assert ExpiredKeys(before, now) - rest == ExpiredKeys(before, now);
    }

    method ImportEntries(entries: Store) returns (ok: bool, ghost order: seq<string>)
      modifies `trusted, `log
      ensures ok == Importable(entries)
      ensures Possible(old(trusted), Import(entries, order))
      ensures trusted == Next(old(trusted), Import(entries, order))
      ensures log == old(log) + Emitted(old(trusted), Import(entries, order))
    {
      order := [];
      ok := LevelsInRange(entries);
      if ok {
        order := Merge(entries);
      }
    }

    /** One new entry, with its callback. */
    method Adopt(key: string, entry: Entry)
      modifies `trusted, `log
      ensures trusted == old(trusted)[key := entry] && log == old(log) + [Event(key, UNKNOWN, entry.level)]
    {
      trusted := trusted[key := entry];
      log := log + [Event(key, UNKNOWN, entry.level)];
    }

    method Merge(entries: Store) returns (ghost order: seq<string>)
      modifies `trusted, `log
      ensures Listing(order, NewKeys(old(trusted), entries))
      ensures trusted == entries + old(trusted)
      ensures log == old(log) + Arrivals(entries, order)
    {
      ghost var before, start := trusted, log;
      order := [];
      var rest := entries.Keys;
      MergingStart(before, entries, start);
      while rest != {}
        invariant Merging(before, entries, rest, order, trusted, start, log)
        decreases |rest|
      {
        var key :| key in rest;
        MergingNext(before, entries, rest, order, trusted, start, log, key);
        rest := rest - {key};
        if key !in trusted {
          Adopt(key, entries[key]);
          order := order + [key];
        }
      }
      Merged(before, entries, order, trusted, start, log);
    }

    method IsAllowed(key: string, now: int) returns (allowed: bool)
      ensures allowed == Allowed(trusted, key, now)
    {
      var level := Check(key, now);
      return level == TOFU || level == VERIFIED || level == PINNED;
    }

    method IsAllowedWithReputation(key: string, now: int) returns (allowed: bool)
      ensures allowed ==
              AllowedWithReputation(trusted, key, now, if reputation == null then None else Some(reputation.entries))
    {
      allowed := IsAllowed(key, now);
      if allowed && reputation != null {
        var malicious := reputation.IsMalicious(key);
        return !malicious;
      }
    }
  }

  // ---- Runs ------------------------------------------------------------------------------

  function Run(s: Store, acts: seq<Action>): Store
    decreases |acts|
  {
    if acts == [] then s else Run(Next(s, acts[0]), acts[1..])
  }

  predicate PossibleRun(s: Store, acts: seq<Action>)
    decreases |acts|
  {
    acts == [] || (Possible(s, acts[0]) && PossibleRun(Next(s, acts[0]), acts[1..]))
  }

  function Log(s: Store, acts: seq<Action>): seq<Event>
    decreases |acts|
  {
    if acts == [] then [] else Emitted(s, acts[0]) + Log(Next(s, acts[0]), acts[1..])
  }

  // ---- The change log is an event source -------------------------------------------------

  type Levels = map<string, int>

  function LevelIn(levels: Levels, key: string): int {
    if key in levels then levels[key] else UNKNOWN
  }

  function Replayed(levels: Levels, events: seq<Event>): Levels
    decreases |events|
  {
    if events == [] then levels else Replayed(levels[events[0].key := events[0].after], events[1..])
  }

  /** Every event's old level is the replayed level before it. */
  predicate Chained(levels: Levels, events: seq<Event>)
    decreases |events|
  {
    events == []
    || (events[0].before == LevelIn(levels, events[0].key)
        && Chained(levels[events[0].key := events[0].after], events[1..]))
  }

  ghost predicate Mirrors(levels: Levels, s: Store) {
    forall k :: LevelIn(levels, k) == Lookup(s, k).level
  }

  lemma {:induction false} ReplayAppend(levels: Levels, a: seq<Event>, b: seq<Event>)
    requires Chained(levels, a) && Chained(Replayed(levels, a), b)
    ensures Chained(levels, a + b) && Replayed(levels, a + b) == Replayed(Replayed(levels, a), b)
    decreases |a|
  {
    if a == [] {
      assert a + b == b;
    } else {
      assert (a + b)[1..] == a[1..] + b;
      ReplayAppend(levels[a[0].key := a[0].after], a[1..], b);
    }
  }

  lemma OneEvent(levels: Levels, e: Event)
    ensures Chained(levels, [e]) <==> e.before == LevelIn(levels, e.key)
    ensures Replayed(levels, [e]) == levels[e.key := e.after]
  {
    assert [e][1..] == [];
  }

  lemma MirrorsUpdate(levels: Levels, s: Store, t: Store, key: string)
    requires Mirrors(levels, s) && (forall k :: k != key ==> Lookup(t, k) == Lookup(s, k))
    ensures Mirrors(levels[key := Lookup(t, key).level], t)
  {
    forall k
      ensures LevelIn(levels[key := Lookup(t, key).level], k) == Lookup(t, k).level
    {
      assert LevelIn(levels, k) == Lookup(s, k).level;
    }
  }

  lemma {:induction false} DeparturesMirror(levels: Levels, s: Store, order: seq<string>, keys: set<string>)
    requires Mirrors(levels, s) && Listing(order, keys)
    ensures Chained(levels, Departures(s, order)) && Mirrors(Replayed(levels, Departures(s, order)), s - keys)
    decreases |order|
  {
    if order == [] {
      assert s - keys == s;
    } else {
      var k := order[0];
      MirrorsUpdate(levels, s, s - {k}, k);
      DeparturesMirror(levels[k := UNKNOWN], s - {k}, order[1..], keys - {k});
      assert s - {k} - (keys - {k}) == s - keys;
    }
  }

  lemma {:induction false} ArrivalsMirror(levels: Levels, s: Store, entries: Store, order: seq<string>, keys: set<string>)
    requires Mirrors(levels, s) && Listing(order, keys) && keys == NewKeys(s, entries)
    ensures Chained(levels, Arrivals(entries, order))
    ensures Mirrors(Replayed(levels, Arrivals(entries, order)), entries + s)
    decreases |order|
  {
    if order == [] {
      assert forall k :: k in entries ==> k in s by {
        assert forall k :: k in entries && k !in s ==> k in keys;
      }
      assert entries + s == s;
    } else {
      var k := order[0];
      var t := s[k := entries[k]];
      assert NewKeys(t, entries) == keys - {k};
      MirrorsUpdate(levels, s, t, k);
      ArrivalsMirror(levels[k := entries[k].level], t, entries, order[1..], keys - {k});
      assert entries + t == entries + s;
    }
  }

  lemma StepMirrors(levels: Levels, s: Store, act: Action)
    requires Mirrors(levels, s) && Possible(s, act)
    ensures Chained(levels, Emitted(s, act)) && Mirrors(Replayed(levels, Emitted(s, act)), Next(s, act))
  {
    if act.CleanExpired? {
      DeparturesMirror(levels, s, act.order, ExpiredKeys(s, act.at));
    } else if act.Import? {
      if Importable(act.entries) {
        ArrivalsMirror(levels, s, act.entries, act.order, NewKeys(s, act.entries));
      }
    } else {
      KeyedMirrors(levels, s, act);
    }
  }

  lemma KeyedMirrors(levels: Levels, s: Store, act: Action)
    requires Mirrors(levels, s) && !act.CleanExpired? && !act.Import?
    ensures Chained(levels, Emitted(s, act)) && Mirrors(Replayed(levels, Emitted(s, act)), Next(s, act))
  {
    var t := Next(s, act);
    assert forall k :: k != act.key ==> Lookup(t, k) == Lookup(s, k);
    MirrorsUpdate(levels, s, t, act.key);
    assert LevelIn(levels, act.key) == Lookup(s, act.key).level;
    OneEvent(levels, Event(act.key, Lookup(s, act.key).level, Lookup(t, act.key).level));
    if Emitted(s, act) == [] {
      assert Lookup(t, act.key).level == Lookup(s, act.key).level;
      MirrorsSame(levels, s, t);
    }
  }

  lemma MirrorsSame(levels: Levels, s: Store, t: Store)
    requires Mirrors(levels, s) && forall k :: Lookup(t, k).level == Lookup(s, k).level
    ensures Mirrors(levels, t)
  {
    forall k
      ensures LevelIn(levels, k) == Lookup(t, k).level
    {
      assert LevelIn(levels, k) == Lookup(s, k).level;
    }
  }

  lemma {:induction false} RunMirrors(levels: Levels, s: Store, acts: seq<Action>)
    requires Mirrors(levels, s) && PossibleRun(s, acts)
    ensures Chained(levels, Log(s, acts)) && Mirrors(Replayed(levels, Log(s, acts)), Run(s, acts))
    decreases |acts|
  {
    if acts != [] {
      var t := Next(s, acts[0]);
      StepMirrors(levels, s, acts[0]);
      RunMirrors(Replayed(levels, Emitted(s, acts[0])), t, acts[1..]);
      ReplayAppend(levels, Emitted(s, acts[0]), Log(t, acts[1..]));
    }
  }

  /** In every run from the empty store, whatever order cleaning and importing visit their maps
      in, replaying the callbacks gives the stored level of every key, and each callback's old
      level is the one replayed before it. */
  lemma LogIsFaithful(acts: seq<Action>, key: string)
    requires PossibleRun(map[], acts)
    ensures Chained(map[], Log(map[], acts))
    ensures LevelIn(Replayed(map[], Log(map[], acts)), key) == Lookup(Run(map[], acts), key).level
  {
    RunMirrors(map[], map[], acts);
  }

  // ---- Blocked peers stay out ------------------------------------------------------------

  predicate Contained(s: Store, key: string) {
    key in s && s[key].wasBlocked && s[key].level != TOFU && s[key].level != VERIFIED && s[key].level != PINNED
  }

  /** The two ways out: removal, and a successful step to an allowed level. */
  predicate Frees(s: Store, act: Action, key: string) {
    || act == RemoveEntry(key)
    || (act.SetTrust? && act.key == key && (act.level == TOFU || act.level == VERIFIED || act.level == PINNED)
        && ValidTransition(Lookup(s, key).level, act.level))
  }

  predicate NeverFrees(s: Store, acts: seq<Action>, key: string)
    decreases |acts|
  {
    acts == [] || (!Frees(s, acts[0], key) && NeverFrees(Next(s, acts[0]), acts[1..], key))
  }

  /** One step leaves a contained peer contained if and only if it is not one of the two. */
  lemma StepContains(s: Store, act: Action, key: string)
    requires Contained(s, key)
    ensures Contained(Next(s, act), key) <==> !Frees(s, act, key)
  {
  }

  lemma {:induction false} RunContains(s: Store, acts: seq<Action>, key: string)
    requires Contained(s, key) && NeverFrees(s, acts, key)
    ensures Contained(Run(s, acts), key)
    decreases |acts|
  {
    if acts != [] {
      StepContains(s, acts[0], key);
      RunContains(Next(s, acts[0]), acts[1..], key);
    }
  }

  /** After a successful block, whatever unblocks, first uses, imports, cleanings and other
      peers' changes follow, the entry stays, remembers the block, and is never allowed, at any
      time and with any reputation, until it is removed or set to an allowed level. */
  lemma BlockedStaysOut(s: Store, key: string, acts: seq<Action>, now: int, scores: Option<R.Store>)
    requires ValidTransition(Lookup(s, key).level, BLOCKED)
    requires NeverFrees(Next(s, SetTrust(key, BLOCKED)), acts, key)
    ensures var t := Run(Next(s, SetTrust(key, BLOCKED)), acts);
            key in t && t[key].wasBlocked && !Allowed(t, key, now) && !AllowedWithReputation(t, key, now, scores)
  {
    RunContains(Next(s, SetTrust(key, BLOCKED)), acts, key);
  }

  /** The freeing steps do free: a peer set to an allowed level is allowed, except that one set to
      first-use trust keeps an expiry it had before, and is allowed only until then; and it always
      takes two explicit steps from the blocked level, as none leads straight out. */
  lemma FreeingSetAllows(s: Store, key: string, level: int, now: int)
    requires Contained(s, key) && Frees(s, SetTrust(key, level), key)
    ensures Allowed(Next(s, SetTrust(key, level)), key, now)
       <==> (level == TOFU && s[key].expiresAt.Some? ==> now <= s[key].expiresAt.value)
    ensures s[key].level == UNKNOWN
    ensures Next(s, SetTrust(key, level))[key].wasBlocked
  {
  }

  /** Removal forgets the block: the next first use is trusted again. */
  lemma RemovalForgetsTheBlock(s: Store, key: string, firstSeen: string, at: int, now: int)
    ensures var t := Run(s, [RemoveEntry(key), FirstUse(key, firstSeen, at)]);
            key in t && !t[key].wasBlocked && (Allowed(t, key, now) <==> now <= at + TOFU_EXPIRY)
  {
    var acts := [RemoveEntry(key), FirstUse(key, firstSeen, at)];
    assert acts[1..] == [FirstUse(key, firstSeen, at)] && acts[1..][1..] == [];
    assert Run(s, acts) == Run(Next(s, acts[0]), acts[1..]);
    assert Run(Next(s, acts[0]), acts[1..]) == Next(Next(s, acts[0]), acts[1]);
  }

  // ---- Setting levels --------------------------------------------------------------------

  /** The moves of an explicit setting, by the numbers of the levels: from unknown (0) anywhere, from
      first use (1) to verified (2) or blocked (3), from verified to pinned (4) or blocked, from pinned
      to blocked, from blocked to unknown. */
  predicate Move(before: int, after: int) {
    before == 0 || (before, after) in {(1, 2), (1, 3), (2, 4), (2, 3), (4, 3), (3, 0)}
  }

  /** A setting takes effect if and only if it is one of these moves or none at all. It then changes the
      level only, keeps a block in mind, and calls back exactly for a move; else nothing changes. */
  lemma SetExactly(s: Store, key: string, level: int)
    requires 0 <= level <= 4 && 0 <= Lookup(s, key).level <= 4
    ensures var before, t := Lookup(s, key), Next(s, SetTrust(key, level));
            && (key in t && t[key].level == level <==>
                  Move(before.level, level) || (before.level == level && (key in s || level == 0)))
            && (t != s ==>
                  && (Move(before.level, level) || before.level == level)
                  && t == s[key := t[key]] && t[key].publicKey == key
                  && t[key].expiresAt == before.expiresAt && t[key].firstSeen == before.firstSeen
                  && t[key].lastSeen == before.lastSeen && t[key].alias == before.alias
                  && (t[key].wasBlocked <==> before.wasBlocked || level == 3))
            && Emitted(s, SetTrust(key, level)) ==
                 if before.level != level && Move(before.level, level) then [Event(key, before.level, level)] else []
  {
  }

  predicate Lowers(act: Action, key: string) {
    act == RemoveEntry(key) || act == SetTrust(key, BLOCKED)
  }

  /** Trust that was given explicitly only rises: in every continuation without a block or removal of the
      peer, a verified peer stays verified or becomes pinned, and a pinned one stays pinned, whatever is
      set, cleaned or imported. */
  lemma {:induction false} TrustOnlyRises(s: Store, acts: seq<Action>, key: string)
    requires key in s && s[key].level in {VERIFIED, PINNED} && forall act :: act in acts ==> !Lowers(act, key)
    ensures var t := Run(s, acts);
            key in t && t[key].level in {VERIFIED, PINNED} && (s[key].level == PINNED ==> t[key].level == PINNED)
    decreases |acts|
  {
    if acts != [] {
      assert !Lowers(acts[0], key);
      TrustOnlyRises(Next(s, acts[0]), acts[1..], key);
    }
  }

  /** Who is allowed, in full: known peers of level first use, verified or pinned, first use only until it
      expires; and with a reputation store only those whose score is at least 0.15, an unknown one
      counting as 0.5. */
  lemma AllowedExactly(s: Store, key: string, now: int, scores: Option<R.Store>)
    ensures Allowed(s, key, now) <==>
              && key in s && s[key].level in {1, 2, 4}
              && (s[key].level == 1 && s[key].expiresAt.Some? ==> now <= s[key].expiresAt.value)
    ensures AllowedWithReputation(s, key, now, scores) <==>
              && Allowed(s, key, now)
              && (scores.Some? ==> (if key in scores.value then scores.value[key].score else 0.5) >= 0.15)
  {
  }

  /** What the other operations do to each key: first use adds unknown peers, trusted until thirty days
      from then; cleaning drops first-use entries past their expiry; an import, if all its levels are
      named ones, adds the peers that are not there, as they are given. */
  lemma StoreOperations(s: Store, key: string, firstSeen: string, at: int, entries: Store, order: seq<string>)
    ensures var t := Next(s, FirstUse(key, firstSeen, at));
            && key in t && t - {key} == s - {key} && (key in s ==> t[key] == s[key])
            && (key !in s ==>
                  && t[key].level == 1 && t[key].publicKey == key && t[key].firstSeen == firstSeen && !t[key].wasBlocked
                  && t[key].expiresAt == Some(at + 30 * 24 * HOUR))
    ensures var t := Next(s, CleanExpired(at, order));
            && (key in t <==> key in s && !(s[key].level == 1 && s[key].expiresAt.Some? && s[key].expiresAt.value < at))
            && (key in t ==> t[key] == s[key])
    ensures var t, named := Next(s, Import(entries, order)), forall k :: k in entries ==> 0 <= entries[k].level <= 4;
            && (key in t <==> key in s || (named && key in entries))
            && (key in t ==> t[key] == if key in s then s[key] else entries[key])
  {
  }

  predicate Stays(s: Store, acts: seq<Action>, key: string)
    decreases |acts|
  {
    key in s && (acts == [] || Stays(Next(s, acts[0]), acts[1..], key))
  }

  /** The latest mark of when the peer was last seen, and the latest alias. */
  function LatestMarks(acts: seq<Action>, key: string, seen: string, alias: string): (string, string)
    decreases |acts|
  {
    if acts == [] then (seen, alias)
    else match acts[0]
      case TouchLastSeen(k, text) => LatestMarks(acts[1..], key, if k == key then text else seen, alias)
      case SetAlias(k, text) => LatestMarks(acts[1..], key, seen, if k == key then text else alias)
      case _ => LatestMarks(acts[1..], key, seen, alias)
  }

  /** As long as a peer stays in the store its marks are the latest that were made, whatever else happens
      to it. */
  lemma {:induction false} MarksAreLatest(s: Store, acts: seq<Action>, key: string)
    requires Stays(s, acts, key)
    ensures var t := Run(s, acts);
            key in t && (t[key].lastSeen, t[key].alias) == LatestMarks(acts, key, s[key].lastSeen, s[key].alias)
    decreases |acts|
  {
    if acts != [] {
      MarksAreLatest(Next(s, acts[0]), acts[1..], key);
    }
  }

  // ---- Cleaning and checking -------------------------------------------------------------

  /** Cleaning changes what a check reports exactly for the entries that it removes, and for those
      only at times before they expire; so never at or after the time of the cleaning. */
  lemma CleaningAndChecks(s: Store, at: int, order: seq<string>, key: string, now: int)
    ensures LevelAt(Next(s, CleanExpired(at, order)), key, now) != LevelAt(s, key, now)
       <==> key in s && Expired(s[key], at) && !Expired(s[key], now)
    ensures now >= at ==> LevelAt(Next(s, CleanExpired(at, order)), key, now) == LevelAt(s, key, now)
  {
  }

  /** First use and check disagree about a known peer exactly when its first-use trust has
      expired and not been cleaned: first use still reports it. */
  lemma ExpiredFirstUse(s: Store, key: string, firstSeen: string, now: int)
    ensures var t := Next(s, FirstUse(key, firstSeen, now));
            t[key].level != LevelAt(t, key, now) <==> key in s && Expired(s[key], now)
  {
  }
}
