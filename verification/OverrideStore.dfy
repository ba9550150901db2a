/** internal/overrides/store.go and pack.go as the object they are: the in-memory banks,
    the touched sets, the flush that merges into a file, and portable packs. */
module OverrideStore {
  import opened Options
  import opened Ordering
  import opened OverrideBanks

  datatype Item<V> = Item(key: string, value: V)

  // ---------------------------------------------------------------- packs as values

  function EffectiveItems<V>(b: Banks<V>, keys: seq<string>): seq<Item<V>>
    requires forall k <- keys :: k in AllKeys(b)
  {
    seq(|keys|, i requires 0 <= i < |keys| =>
      assert keys[i] in keys && keys[i] in AllKeys(b);
      Item(keys[i], Effective(b, keys[i]).value.value))
  }

  /** An unfiltered export. */
  function PackOf<V>(b: Banks<V>): seq<Item<V>>
  {
    EffectiveItems(b, SortedKeys(AllKeys(b)))
  }

  lemma ItemsAreEffective<V>(b: Banks<V>, keys: seq<string>, k: string, v: V)
    requires forall k <- keys :: k in AllKeys(b)
    ensures Item(k, v) in EffectiveItems(b, keys) <==> k in keys && Effective(b, k).value.value == v
  {
    var items := EffectiveItems(b, keys);
    if Item(k, v) in items {
      var i :| 0 <= i < |items| && items[i] == Item(k, v);
      assert keys[i] == k;
    }
    if k in keys && Effective(b, k).value.value == v {
      var i :| 0 <= i < |keys| && keys[i] == k;
      assert items[i] == Item(k, v);
    }
  }

  lemma EveryKeyIsEffective<V>(b: Banks<V>)
    ensures forall k :: k in AllKeys(b) <==> Effective(b, k).Some?
  {
  }

  /** Sorted by key, each key once, and exactly the values GetOverride would return. */
  lemma PackIsEffective<V>(b: Banks<V>)
    ensures forall i, j | 0 <= i < j < |PackOf(b)| :: Less(PackOf(b)[i].key, PackOf(b)[j].key)
    ensures forall k, v :: Item(k, v) in PackOf(b) <==>
      Effective(b, k).Some? && Effective(b, k).value.value == v
  {
    hide Less, SortedKeys, Effective;
    var keys := SortedKeys(AllKeys(b));
    EveryKeyIsEffective(b);
    assert PackOf(b) == EffectiveItems(b, keys);
    forall k, v ensures Item(k, v) in PackOf(b) <==> Effective(b, k).Some? && Effective(b, k).value.value == v {
      ItemsAreEffective(b, keys, k, v);
      hide EffectiveItems, PackOf;
    }
  }

  // ---------------------------------------------------------------- sorting a pack

  function InsertItem<V>(x: Item<V>, s: seq<Item<V>>): seq<Item<V>>
  {
    if s == [] || Less(x.key, s[0].key) then [x] + s else [s[0]] + InsertItem(x, s[1..])
  }

  /** sort.Slice by key. */
  function SortItems<V>(s: seq<Item<V>>): seq<Item<V>>
  {
    if s == [] then [] else InsertItem(s[|s| - 1], SortItems(s[..|s| - 1]))
  }

  ghost predicate KeysAscend<V>(s: seq<Item<V>>)
  {
    forall i, j | 0 <= i < j < |s| :: Less(s[i].key, s[j].key)
  }

  ghost predicate KeysDiffer<V>(s: seq<Item<V>>)
  {
    forall i, j | 0 <= i < j < |s| :: s[i].key != s[j].key
  }

  lemma {:induction false} InsertHolds<V>(x: Item<V>, s: seq<Item<V>>, y: Item<V>)
    ensures y in InsertItem(x, s) <==> y == x || y in s
  {
    if s != [] {
      InsertHolds(x, s[1..], y);
      assert s == [s[0]] + s[1..];
    }
  }

  lemma {:induction false} SortHolds<V>(s: seq<Item<V>>, y: Item<V>)
    ensures y in SortItems(s) <==> y in s
  {
    if s != [] {
      var front, last := s[..|s| - 1], s[|s| - 1];
      SortHolds(front, y);
      InsertHolds(last, SortItems(front), y);
      assert s == front + [last];
    }
  }

  lemma {:induction false} InsertAscends<V>(x: Item<V>, s: seq<Item<V>>)
    requires KeysAscend(s) && forall y <- s :: y.key != x.key
    ensures KeysAscend(InsertItem(x, s))
  {
    if s != [] {
      LessTotal(x.key, s[0].key);
      assert s[0] in s;
      if Less(x.key, s[0].key) {
        forall j | 0 < j < |s| ensures Less(x.key, s[j].key) { LessTransitive(x.key, s[0].key, s[j].key); }
      } else {
        InsertAscends(x, s[1..]);
        var r := InsertItem(x, s[1..]);
        forall j | 0 <= j < |r| ensures Less(s[0].key, r[j].key) {
          InsertHolds(x, s[1..], r[j]);
          if r[j] != x {
            var k :| 0 <= k < |s[1..]| && s[1..][k] == r[j];
            assert s[k + 1] == r[j];
          }
        }
        hide Less, InsertItem;
      }
    }
  }

  lemma {:induction false} SortAscends<V>(s: seq<Item<V>>)
    requires KeysDiffer(s)
    ensures KeysAscend(SortItems(s))
  {
    if s != [] {
      var front, last := s[..|s| - 1], s[|s| - 1];
      SortAscends(front);
      forall y <- SortItems(front) ensures y.key != last.key {
        SortHolds(front, y);
        var i :| 0 <= i < |front| && front[i] == y;
        assert s[i] == y;
      }
      InsertAscends(last, SortItems(front));
    }
  }

  /** A list in key order is determined by its items. */
  lemma {:induction false} SameItems<V>(a: seq<Item<V>>, b: seq<Item<V>>)
    requires KeysAscend(a) && KeysAscend(b) && forall y :: y in a <==> y in b
    ensures a == b
  {
    EmptyOrHas(a);
    EmptyOrHas(b);
    if a != [] && b != [] {
      FirstIsLeast(a, b);
      FirstIsLeast(b, a);
      LessTotal(a[0].key, b[0].key);
      hide Less;
      assert a[0] == b[0];
      forall y ensures y in a[1..] <==> y in b[1..] {
        InTail(a, y);
        InTail(b, y);
      }
      SameItems(a[1..], b[1..]);
      assert a == [a[0]] + a[1..] && b == [b[0]] + b[1..];
    }
  }

  lemma EmptyOrHas<V>(s: seq<Item<V>>)
    ensures s == [] || exists y :: y in s
  {
    if s != [] {
      assert s[0] in s;
    }
  }

  lemma FirstIsLeast<V>(a: seq<Item<V>>, b: seq<Item<V>>)
    requires KeysAscend(b) && a != [] && b != [] && a[0] in b
    ensures a[0] == b[0] || Less(b[0].key, a[0].key)
  {
    hide Less;
    var i :| 0 <= i < |b| && b[i] == a[0];
  }

  lemma InTail<V>(s: seq<Item<V>>, y: Item<V>)
    requires KeysAscend(s) && s != []
    ensures y in s[1..] <==> y in s && y != s[0]
  {
    if y in s[1..] {
      var i :| 0 <= i < |s[1..]| && s[1..][i] == y;
      assert s[i + 1] == y && Less(s[0].key, s[i + 1].key);
      LessTotal(y.key, y.key);
    }
    hide Less;
  }

  // ---------------------------------------------------------------- imports as values

  /** Import's loop over the entries: without overwrite, a key already won by the target
      scope is skipped. */
  function ImportItems<V>(b: Banks<V>, pack: seq<Item<V>>, scope: Scope, overwrite: bool): Banks<V>
  {
    if pack == [] then b
    else ImportOne(ImportItems(b, pack[..|pack| - 1], scope, overwrite), pack[|pack| - 1], scope, overwrite)
  }

  predicate Skipped<V>(b: Banks<V>, k: string, scope: Scope, overwrite: bool)
  {
    !overwrite && Effective(b, k).Some? && Effective(b, k).value.scope == scope
  }

  function ImportOne<V>(b: Banks<V>, item: Item<V>, scope: Scope, overwrite: bool): Banks<V>
  {
    if Skipped(b, item.key, scope, overwrite) then b
    else b.With(scope, b.At(scope)[item.key := item.value])
  }

  /** The keys Import reports as skipped, in pack order. */
  function SkippedKeys<V>(b: Banks<V>, pack: seq<Item<V>>, scope: Scope, overwrite: bool): seq<string>
  {
    if pack == [] then []
    else
      var before, item := pack[..|pack| - 1], pack[|pack| - 1];
      SkippedKeys(b, before, scope, overwrite) +
      (if Skipped(ImportItems(b, before, scope, overwrite), item.key, scope, overwrite) then [item.key] else [])
  }

  function EmptyBanks<V>(): Banks<V>
  {
    Banks(map[], map[], map[])
  }

  predicate OnlyIn<V>(b: Banks<V>, scope: Scope)
  {
    && (scope == Local || |b.local| == 0)
    && (scope == Project || |b.project| == 0)
    && (scope == User || |b.user| == 0)
  }

  lemma {:induction false} ImportIntoEmpty<V>(pack: seq<Item<V>>, scope: Scope, k: string)
    requires forall i, j | 0 <= i < j < |pack| :: pack[i].key != pack[j].key
    ensures var r := ImportItems(EmptyBanks(), pack, scope, true);
      && OnlyIn(r, scope)
      && (forall v :: Lookup(r.At(scope), k) == Some(v) <==> Item(k, v) in pack)
  {
    if pack != [] {
      var last := |pack| - 1;
      ImportIntoEmpty(pack[..last], scope, k);
      assert pack == pack[..last] + [pack[last]];
      forall v | pack[last].key == k ensures Item(k, v) in pack <==> v == pack[last].value {
        if Item(k, v) in pack {
          var i :| 0 <= i < |pack| && pack[i] == Item(k, v);
          assert i == last;
        }
      }
    }
  }

  lemma PackKeysDiffer<V>(b: Banks<V>)
    ensures forall i, j | 0 <= i < j < |PackOf(b)| :: PackOf(b)[i].key != PackOf(b)[j].key
  {
    PackIsEffective(b);
    hide PackOf, EffectiveItems;
    forall i, j | 0 <= i < j < |PackOf(b)| ensures PackOf(b)[i].key != PackOf(b)[j].key {
      LessTotal(PackOf(b)[i].key, PackOf(b)[j].key);
    }
  }

  /** Exporting a store and importing the pack, with overwrite, into an empty one restores
      every effective value, whichever scope it lands in. */
  lemma ExportImportRestores<V(!new)>(b: Banks<V>, scope: Scope, k: string)
    ensures var r := ImportItems(EmptyBanks(), PackOf(b), scope, true);
      && (Effective(r, k).Some? <==> Effective(b, k).Some?)
      && (Effective(r, k).Some? ==> Effective(r, k).value == Winner(scope, Effective(b, k).value.value))
  {
    PackIsEffective(b);
    PackKeysDiffer(b);
    ImportIntoEmpty(PackOf(b), scope, k);
    OnlyThatScopeWins(ImportItems(EmptyBanks(), PackOf(b), scope, true), scope, k);
    hide PackOf, EffectiveItems, ImportItems;
    if Effective(b, k).Some? {
      assert Item(k, Effective(b, k).value.value) in PackOf(b);
    }
  }

  lemma OnlyThatScopeWins<V>(b: Banks<V>, scope: Scope, k: string)
    requires OnlyIn(b, scope)
    ensures Effective(b, k) == (if k in b.At(scope) then Some(Winner(scope, b.At(scope)[k])) else None)
  {
  }

  /** A polite import never changes the effective value of a key won by the target scope
      or a stronger one. */
  lemma {:induction false} PoliteImportKeepsWinners<V>(b: Banks<V>, pack: seq<Item<V>>, scope: Scope, k: string)
    requires Effective(b, k).Some? && Rank(Effective(b, k).value.scope) <= Rank(scope)
    ensures Effective(ImportItems(b, pack, scope, false), k) == Effective(b, k)
  {
    if pack != [] {
      PoliteImportKeepsWinners(b, pack[..|pack| - 1], scope, k);
      EffectiveIsFirst(ImportItems(b, pack[..|pack| - 1], scope, false), k);
    }
  }

  /** The last value a pack gives a key. */
  function LastFor<V>(pack: seq<Item<V>>, k: string): Option<V>
  {
    if pack == [] then None
    else if pack[|pack| - 1].key == k then Some(pack[|pack| - 1].value)
    else LastFor(pack[..|pack| - 1], k)
  }

  /** The skip looks at the winning scope only: through a whole import without overwrite, an
      entry the target scope already has is kept if that scope wins the key, and otherwise
      becomes the last value the pack gives it. */
  lemma {:induction false} PoliteImportInScope<V>(b: Banks<V>, pack: seq<Item<V>>, scope: Scope, k: string)
    requires k in b.At(scope)
    ensures var r := ImportItems(b, pack, scope, false);
      && Effective(r, k).Some? && (Effective(r, k).value.scope == scope <==> Effective(b, k).value.scope == scope)
      && Lookup(r.At(scope), k) ==
           if Effective(b, k).value.scope == scope || LastFor(pack, k).None? then Some(b.At(scope)[k])
           else LastFor(pack, k)
  {
    if pack != [] {
      PoliteImportInScope(b, pack[..|pack| - 1], scope, k);
    }
  }

  /** So it survives exactly when that scope wins the key or the pack ends on the same value. */
  lemma ShadowedEntriesAreOverwritten<V>(b: Banks<V>, pack: seq<Item<V>>, scope: Scope, k: string)
    requires k in b.At(scope)
    ensures Lookup(ImportItems(b, pack, scope, false).At(scope), k) == Some(b.At(scope)[k]) <==>
      Effective(b, k).value.scope == scope || LastFor(pack, k) in {None, Some(b.At(scope)[k])}
  {
    PoliteImportInScope(b, pack, scope, k);
    hide ImportItems, LastFor;
  }

  /** With overwrite, the target scope ends with the pack's last value for each key it gives,
      and everything else is as it was. */
  lemma {:induction false} ImportOverwrites<V>(b: Banks<V>, pack: seq<Item<V>>, scope: Scope, k: string, s: Scope)
    ensures Lookup(ImportItems(b, pack, scope, true).At(s), k) ==
      if s == scope && LastFor(pack, k).Some? then LastFor(pack, k) else Lookup(b.At(s), k)
  {
    if pack != [] {
      ImportOverwrites(b, pack[..|pack| - 1], scope, k, s);
    }
  }

  /** Without, no other scope changes either, and a key new to the target scope takes the
      pack's first value where that makes it the winner, and the last where it stays hidden. */
  lemma {:induction false} PoliteImportOfNewKey<V>(b: Banks<V>, pack: seq<Item<V>>, scope: Scope, k: string, s: Scope)
    ensures var r := ImportItems(b, pack, scope, false);
      && (s != scope ==> Lookup(r.At(s), k) == Lookup(b.At(s), k))
      && (k !in b.At(scope) ==>
            Lookup(r.At(scope), k) == if Hidden(b, k, scope) then LastFor(pack, k) else FirstFor(pack, k))
  {
    if pack != [] {
      var front := pack[..|pack| - 1];
      PoliteImportOfNewKey(b, front, scope, k, s);
      PoliteImportOfNewKey(b, front, scope, k, Local);
      PoliteImportOfNewKey(b, front, scope, k, Project);
      FirstOfMore(pack, k);
      SameMention(front, k);
    }
  }

  /** A stronger scope has the key. */
  predicate Hidden<V>(b: Banks<V>, k: string, scope: Scope)
  {
    (scope != Local && k in b.local) || (scope == User && k in b.project)
  }

  /** The first value a pack gives a key. */
  function FirstFor<V>(pack: seq<Item<V>>, k: string): Option<V>
  {
    if pack == [] then None else if pack[0].key == k then Some(pack[0].value) else FirstFor(pack[1..], k)
  }

  lemma {:induction false} FirstOfMore<V>(pack: seq<Item<V>>, k: string)
    requires pack != []
    ensures var front, last := FirstFor(pack[..|pack| - 1], k), pack[|pack| - 1];
      FirstFor(pack, k) == if front.None? && last.key == k then Some(last.value) else front
  {
    if |pack| > 1 {
      FirstOfMore(pack[1..], k);
      assert pack[1..][..|pack| - 2] == pack[..|pack| - 1][1..];
    }
  }

  lemma {:induction false} SameMention<V>(pack: seq<Item<V>>, k: string)
    ensures FirstFor(pack, k).None? <==> LastFor(pack, k).None?
  {
    if pack != [] {
      FirstOfMore(pack, k);
      SameMention(pack[..|pack| - 1], k);
    }
  }

  /** What Import reports: for packs that give each key once, exactly the keys the target scope
      won before. */
  lemma {:induction false} SkipsTheWon<V>(b: Banks<V>, pack: seq<Item<V>>, scope: Scope, overwrite: bool, k: string)
    requires KeysDiffer(pack)
    ensures k in SkippedKeys(b, pack, scope, overwrite) <==>
      && !overwrite && (exists item <- pack :: item.key == k)
      && k in b.At(scope) && !Hidden(b, k, scope)
  {
    if pack != [] {
      var front, last := pack[..|pack| - 1], pack[|pack| - 1];
      SkipsTheWon(b, front, scope, overwrite, k);
      assert pack == front + [last];
      hide ImportItems, Effective, Hidden;
      WonUnlessHidden(b, scope, k);
      if last.key == k {
        forall item <- front ensures item.key != k {
          var i :| 0 <= i < |front| && front[i] == item;
          assert pack[i].key != pack[|pack| - 1].key;
        }
        NotYetImported(b, front, scope, overwrite, k);
        SameLookups(ImportItems(b, front, scope, overwrite), b, k);
      }
    }
  }

  lemma WonUnlessHidden<V>(b: Banks<V>, scope: Scope, k: string)
    ensures Effective(b, k).Some? && Effective(b, k).value.scope == scope <==> k in b.At(scope) && !Hidden(b, k, scope)
  {
  }

  lemma SameLookups<V>(a: Banks<V>, b: Banks<V>, k: string)
    requires forall s: Scope :: Lookup(a.At(s), k) == Lookup(b.At(s), k)
    ensures Effective(a, k) == Effective(b, k)
  {
    assert a.At(Local) == a.local && a.At(Project) == a.project && a.At(User) == a.user;
    assert b.At(Local) == b.local && b.At(Project) == b.project && b.At(User) == b.user;
  }

  lemma {:induction false} NotYetImported<V>(b: Banks<V>, pack: seq<Item<V>>, scope: Scope, overwrite: bool, k: string)
    requires forall item <- pack :: item.key != k
    ensures forall s: Scope :: Lookup(ImportItems(b, pack, scope, overwrite).At(s), k) == Lookup(b.At(s), k)
  {
    if pack != [] {
      NotYetImported(b, pack[..|pack| - 1], scope, overwrite, k);
    }
  }

  function Without<V>(b: Banks<V>, from: set<Scope>, key: string): Banks<V>
  {
    Banks(if Local in from then b.local - {key} else b.local,
          if Project in from then b.project - {key} else b.project,
          if User in from then b.user - {key} else b.user)
  }

  /** Which of these scopes have the key. */
  function HitScopes<V>(b: Banks<V>, from: set<Scope>, key: string): set<Scope>
  {
    set s <- from | key in b.At(s)
  }

  /** The touched sets once this key is marked in these scopes. */
  function Marked(touched: map<Scope, set<string>>, scopes: set<Scope>, key: string): map<Scope, set<string>>
  {
    map s | s in touched.Keys + scopes :: if s in scopes then TouchedIn(touched, s) + {key} else touched[s]
  }

  function TouchedIn(touched: map<Scope, set<string>>, s: Scope): set<string>
  {
    if s in touched then touched[s] else {}
  }

  lemma MarkedOneMore(touched: map<Scope, set<string>>, scopes: set<Scope>, s: Scope, key: string)
    ensures Marked(Marked(touched, scopes, key), {s}, key) == Marked(touched, scopes + {s}, key)
    ensures Marked(touched, {}, key) == touched
  {
  }

  /** The given scope, or every one, has lost the key, and it is touched where it was. */
  ghost predicate Removed<V>(was: Banks<V>, now: Banks<V>, touchedWas: map<Scope, set<string>>,
                             touchedNow: map<Scope, set<string>>, scope: Option<Scope>, key: string)
  {
    forall s ::
      LosesKey(was.At(s), now.At(s), TouchedIn(touchedWas, s), TouchedIn(touchedNow, s), scope in {None, Some(s)}, key)
  }

  ghost predicate LosesKey<V>(was: Bank<V>, now: Bank<V>, touchedWas: set<string>, touchedNow: set<string>,
                              here: bool, key: string)
  {
    var hit := here && key in was;
    && now == (if hit then was - {key} else was)
    && touchedNow == touchedWas + (if hit then {key} else {})
  }

  lemma WithoutRemoves<V>(b: Banks<V>, touched: map<Scope, set<string>>, scope: Option<Scope>, key: string)
    ensures var from := if scope.None? then {Local, Project, User} else {scope.value};
      Removed(b, Without(b, from, key), touched, Marked(touched, HitScopes(b, from, key), key), scope, key)
  {
    var from := if scope.None? then {Local, Project, User} else {scope.value};
    forall s { RemovedAt(b, touched, from, key, s); }
    assert forall s :: s in from <==> scope in {None, Some(s)};
    hide Without, HitScopes, Marked, TouchedIn, LosesKey;
  }

  lemma RemovedAt<V>(b: Banks<V>, touched: map<Scope, set<string>>, from: set<Scope>, key: string, s: Scope)
    ensures LosesKey(b.At(s), Without(b, from, key).At(s), TouchedIn(touched, s),
                     TouchedIn(Marked(touched, HitScopes(b, from, key), key), s), s in from, key)
  {
  }

  lemma NoScopeYet<V>(b: Banks<V>, key: string)
    ensures Without(b, {}, key) == b && HitScopes(b, {}, key) == {}
  {
  }

  lemma OneMoreScope<V>(b: Banks<V>, done: set<Scope>, s: Scope, key: string)
    requires s !in done
    ensures HitScopes(b, done + {s}, key) == HitScopes(b, done, key) + (if key in b.At(s) then {s} else {})
    ensures |HitScopes(b, done + {s}, key)| == |HitScopes(b, done, key)| + (if key in b.At(s) then 1 else 0)
    ensures Without(Without(b, done, key), {s}, key) == Without(b, done + {s}, key)
    ensures Without(b, done, key).At(s) == b.At(s)
  {
    assert HitScopes(b, done + {s}, key) == HitScopes(b, done, key) + (if key in b.At(s) then {s} else {});
    match s
    case Local =>
    case Project =>
    case User =>
  }

  /** A value that was hidden shows through once the scope that won is cleared. */
  lemma RemoveUncovers<V>(b: Banks<V>, key: string, k: string)
    requires Effective(b, key).Some?
    ensures var scope, r := Effective(b, key).value.scope, Without(b, {Effective(b, key).value.scope}, key);
      && (k != key ==> Effective(r, k) == Effective(b, k))
      && (Effective(r, key).Some? ==> Rank(scope) < Rank(Effective(r, key).value.scope))
      && Effective(Without(b, {Local, Project, User}, key), key).None?
  {
  }

  // ---------------------------------------------------------------- the objects

  /** One bank file. */
  class BankFile<V> {
    var content: Disk<V>

    constructor (content: Disk<V>)
      ensures this.content == content
    {
      this.content := content;
    }
  }

  class Store<V> {
    const available: set<Scope>
    var banks: Banks<V>
    var touched: map<Scope, set<string>>

    /** The keys of this scope's bank this process has written or deleted. */
    ghost function Touched(s: Scope): set<string>
      reads this
    {
      TouchedIn(touched, s)
    }

    constructor (available: set<Scope>, banks: Banks<V>)
      ensures this.available == available && this.banks == banks && touched == map[]
    {
      this.available, this.banks, this.touched := available, banks, map[];
    }

    method MarkTouched(scope: Scope, key: string)
      modifies this`touched
      ensures touched == Marked(old(touched), {scope}, key)
      ensures forall s :: Touched(s) == old(Touched(s)) + (if s == scope then {key} else {})
    {
      var keys := if scope in touched then touched[scope] else {};
      touched := touched[scope := keys + {key}];
    }

    method SetMem(scope: Scope, key: string, v: V) returns (ok: bool)
      modifies this`banks, this`touched
      ensures ok == (scope in available)
      ensures ok ==> banks == old(banks).With(scope, old(banks).At(scope)[key := v])
      ensures ok ==> touched == Marked(old(touched), {scope}, key)
      ensures ok ==> forall s ::
        && banks.At(s) == (if s == scope then old(banks).At(s)[key := v] else old(banks).At(s))
        && Touched(s) == old(Touched(s)) + (if s == scope then {key} else {})
      ensures !ok ==> banks == old(banks) && touched == old(touched)
    {
      if scope !in available {
        return false;
      }
      banks := banks.With(scope, banks.At(scope)[key := v]);
      MarkTouched(scope, key);
      ok := true;
    }

    /** One scope of RemoveOverride's loop: an entry that is there goes, and is touched. */
    method RemoveAt(s: Scope, key: string) returns (found: bool)
      modifies this`banks, this`touched
      ensures found == (key in old(banks).At(s))
      ensures banks == Without(old(banks), {s}, key)
      ensures touched == if found then Marked(old(touched), {s}, key) else old(touched)
    {
      found := key in banks.At(s);
      if found {
        banks := banks.With(s, banks.At(s) - {key});
        MarkTouched(s, key);
      }
    }

    /** The loop over scopes: those that had the key lose it, count, and are touched. */
    method RemoveFrom(from: set<Scope>, key: string) returns (n: nat)
      modifies this`banks, this`touched
      ensures banks == Without(old(banks), from, key)
      ensures n == |HitScopes(old(banks), from, key)|
      ensures touched == Marked(old(touched), HitScopes(old(banks), from, key), key)
    {
      NoScopeYet(banks, key);
      MarkedOneMore(touched, {}, Local, key);
      hide Without, HitScopes, Marked;
      n := 0;
      var todo := from;
      ghost var done: set<Scope> := {};
      while todo != {}
        invariant todo !! done && todo + done == from
        invariant banks == Without(old(banks), done, key)
        invariant n == |HitScopes(old(banks), done, key)|
        invariant touched == Marked(old(touched), HitScopes(old(banks), done, key), key)
        decreases todo
      {
        var s :| s in todo;
        OneMoreScope(old(banks), done, s, key);
        MarkedOneMore(old(touched), HitScopes(old(banks), done, key), s, key);
        var found := RemoveAt(s, key);
        todo, done := todo - {s}, done + {s};
        if found {
          n := n + 1;
        }
      }
      assert done == from;
    }

    /** RemoveOverride's critical section: the given scope, or every scope. */
    method RemoveMem(scope: Option<Scope>, key: string) returns (n: nat)
      modifies this`banks, this`touched
      ensures var from := if scope.None? then {Local, Project, User} else {scope.value};
        && banks == Without(old(banks), from, key)
        && n == |HitScopes(old(banks), from, key)|
        && touched == Marked(old(touched), HitScopes(old(banks), from, key), key)
      ensures Removed(old(banks), banks, old(touched), touched, scope, key)
    {
      var from := if scope.None? then {Local, Project, User} else {scope.value};
      WithoutRemoves(banks, touched, scope, key);
      hide Without, HitScopes, Marked, Removed;
      n := RemoveFrom(from, key);
    }

    /** GetOverride: the first scope in precedence order that has the key. */
    method Get(key: string) returns (r: Option<Winner<V>>)
      ensures r == Effective(banks, key)
      ensures r.None? <==> key !in banks.local && key !in banks.project && key !in banks.user
      ensures key in banks.local ==> r == Some(Winner(Local, banks.local[key]))
      ensures key in banks.project && key !in banks.local ==> r == Some(Winner(Project, banks.project[key]))
    {
      for i := 0 to |ALL_SCOPES|
        invariant forall s: Scope | Rank(s) < i :: key !in banks.At(s)
      {
        var s := ALL_SCOPES[i];
        if key in banks.At(s) {
          return Some(Winner(s, banks.At(s)[key]));
        }
        assert forall t: Scope | Rank(t) < i + 1 :: Rank(t) < i || t == s;
      }
      assert Rank(Local) < 3 && Rank(Project) < 3 && Rank(User) < 3;
      return None;
    }

    /** writeBank: re-read the file, overlay the touched keys, write it back; without the lock
        or the write nothing changes. */
    method WriteBank(scope: Scope, file: BankFile<V>, lockable: bool, writable: bool) returns (ok: bool)
      modifies file
      ensures ok == (scope in available && lockable && writable)
      ensures ok ==> file.content == Holds(Merged(banks.At(scope), Touched(scope), old(file.content)))
      ensures ok && old(file.content).Corrupt? ==> file.content == Holds(banks.At(scope))
      ensures ok && !old(file.content).Corrupt? ==> forall k ::
        Lookup(file.content.bank, k) ==
          if k in Touched(scope) then Lookup(banks.At(scope), k)
          else if old(file.content).Holds? then Lookup(old(file.content).bank, k) else None
      ensures !ok ==> file.content == old(file.content)
    {
      if scope !in available || !lockable {
        return false;
      }
      var mem := banks.At(scope);
      var merged := mem;
      if !file.content.Corrupt? {
        var base := if file.content.Holds? then file.content.bank else map[];
        merged := base;
        var keys := if scope in touched then touched[scope] else {};
        var todo := keys;
        while todo != {}
          invariant todo <= keys
          invariant merged == Overlay(base, mem, keys - todo)
          decreases todo
        {
          var k :| k in todo;
          todo := todo - {k};
          if k in mem {
            merged := merged[k := mem[k]];
          } else {
            merged := merged - {k};
          }
        }
        assert keys - todo == keys;
      }
      if !writable {
        return false;
      }
      file.content := Holds(merged);
      ok := true;
    }

    /** The seen-map loop of Export and of the override adapter's CustomTools: every key
        once, with the value of the first scope that has it. */
    method MergeScopes() returns (out: seq<Item<V>>)
      ensures forall i, j | 0 <= i < j < |out| :: out[i].key != out[j].key
      ensures forall k, v :: Item(k, v) in out <==> Effective(banks, k).Some? && Effective(banks, k).value.value == v
    {
      out := [];
      var seen: set<string> := {};
      for i := 0 to |ALL_SCOPES|
        invariant forall k :: k in seen <==> exists s: Scope :: Rank(s) < i && k in banks.At(s)
        invariant Listed(out, seen)
      {
        var s := ALL_SCOPES[i];
        var bank := banks.At(s);
        ghost var before := seen;
        var todo := bank.Keys;
        while todo != {}
          invariant todo <= bank.Keys
          invariant seen == before + (bank.Keys - todo)
          invariant Listed(out, seen)
          decreases todo
        {
          var k :| k in todo;
          todo := todo - {k};
          if k !in seen {
            seen := seen + {k};
            assert Effective(banks, k) == Some(Winner(s, bank[k])) by { FirstSeen(i, s, k); }
            out := out + [Item(k, bank[k])];
          }
        }
        forall k ensures k in seen <==> exists t: Scope :: Rank(t) < i + 1 && k in banks.At(t) {
          if t: Scope :| Rank(t) < i + 1 && k in banks.At(t) { assert Rank(t) < i || t == s; }
          if k in bank { assert Rank(s) < i + 1 && k in banks.At(s); }
        }
      }
      forall k ensures k in seen <==> Effective(banks, k).Some? {
        EffectiveIsFirst(banks, k);
        if s: Scope :| k in banks.At(s) { assert Rank(s) < 3; }
      }
    }

    /** Export without a selector: the merged entries, sorted by key. */
    method Export() returns (pack: seq<Item<V>>)
      ensures pack == PackOf(banks)
    {
      var out := MergeScopes();
      pack := SortItems(out);
      SortAscends(out);
      PackIsEffective(banks);
      hide SortItems, PackOf, Less, Effective;
      forall y ensures y in pack <==> y in PackOf(banks) {
        SortHolds(out, y);
        assert y == Item(y.key, y.value);
      }
      SameItems(pack, PackOf(banks));
    }

    ghost predicate Listed(out: seq<Item<V>>, seen: set<string>)
      reads this
    {
      && (forall i, j | 0 <= i < j < |out| :: out[i].key != out[j].key)
      && (forall item <- out :: item.key in seen && Effective(banks, item.key).Some?
            && Effective(banks, item.key).value.value == item.value)
      && (forall k <- seen :: Effective(banks, k).Some? && Item(k, Effective(banks, k).value.value) in out)
    }

    lemma FirstSeen(i: nat, s: Scope, k: string)
      requires Rank(s) == i && k in banks.At(s)
      requires forall t: Scope | Rank(t) < i :: k !in banks.At(t)
      ensures Effective(banks, k) == Some(Winner(s, banks.At(s)[k]))
    {
      EffectiveIsFirst(banks, k);
    }

    /** Import, up to the single flush per bank. */
    method ImportMem(pack: seq<Item<V>>, scope: Scope, overwrite: bool)
      returns (ok: bool, imported: nat, skipped: seq<string>)
      modifies this`banks, this`touched
      ensures ok <==> scope in available || imported + |skipped| == |pack|
      ensures ok ==> banks == ImportItems(old(banks), pack, scope, overwrite) && imported + |skipped| == |pack|
      ensures ok ==> skipped == SkippedKeys(old(banks), pack, scope, overwrite)
      ensures overwrite ==> skipped == []
    {
      hide Effective, Marked;
      imported, skipped := 0, [];
      for i := 0 to |pack|
        invariant banks == ImportItems(old(banks), pack[..i], scope, overwrite)
        invariant imported + |skipped| == i
        invariant skipped == SkippedKeys(old(banks), pack[..i], scope, overwrite)
        invariant overwrite ==> skipped == []
        invariant scope !in available ==> imported == 0
      {
        assert pack[..i + 1][..i] == pack[..i];
        var po := pack[i];
        if !overwrite {
          var existing := Get(po.key);
          if existing.Some? && existing.value.scope == scope {
            skipped := skipped + [po.key];
            continue;
          }
        }
        var set' := SetMem(scope, po.key, po.value);
        if !set' {
          return false, imported, skipped;
        }
        imported := imported + 1;
      }
      assert pack[..|pack|] == pack;
      ok := true;
    }
  }
}
