/** internal/overrides: one bank (overrides or custom tools; the two are the same code at
    two value types) as it lives in a process's memory and in a file. */
module OverrideBanks {
  import opened Options

  datatype Scope = Local | Project | User

  /** Precedence order: an earlier scope wins. */
  const ALL_SCOPES: seq<Scope> := [Local, Project, User]

  type Bank<V> = map<string, V>

  /** One bank a scope. */
  datatype Banks<V> = Banks(local: Bank<V>, project: Bank<V>, user: Bank<V>)
  {
    function At(s: Scope): Bank<V>
    {
      match s case Local => local case Project => project case User => user
    }

    function With(s: Scope, bank: Bank<V>): Banks<V>
    {
      match s
      case Local => this.(local := bank)
      case Project => this.(project := bank)
      case User => this.(user := bank)
    }
  }

  datatype Disk<V> = Missing | Corrupt | Holds(bank: Bank<V>)

  function Lookup<V>(b: Bank<V>, k: string): Option<V>
  {
    if k in b then Some(b[k]) else None
  }

  function Content<V>(d: Disk<V>): Bank<V>
  {
    if d.Holds? then d.bank else map[]
  }

  /** Keys this process touched take its value, or its deletion; the rest keep theirs. */
  function Overlay<V>(base: Bank<V>, mem: Bank<V>, touched: set<string>): Bank<V>
  {
    map k | k in base.Keys + mem.Keys && (if k in touched then k in mem else k in base)
      :: if k in touched then mem[k] else base[k]
  }

  /** What writeBank puts in the file. An unreadable file is replaced outright. */
  function Merged<V>(mem: Bank<V>, touched: set<string>, disk: Disk<V>): Bank<V>
  {
    if disk.Corrupt? then mem else Overlay(Content(disk), mem, touched)
  }

  lemma OverlayLookup<V>(base: Bank<V>, mem: Bank<V>, touched: set<string>, k: string)
    ensures Lookup(Overlay(base, mem, touched), k) == if k in touched then Lookup(mem, k) else Lookup(base, k)
  {
  }

  // ---------------------------------------------------------------- precedence

  datatype Winner<V> = Winner(scope: Scope, value: V)

  /** MergeOverride / MergeCustom. */
  function Effective<V>(b: Banks<V>, k: string): Option<Winner<V>>
  {
    if k in b.local then Some(Winner(Local, b.local[k]))
    else if k in b.project then Some(Winner(Project, b.project[k]))
    else if k in b.user then Some(Winner(User, b.user[k]))
    else None
  }

  function Rank(s: Scope): nat
  {
    match s case Local => 0 case Project => 1 case User => 2
  }

  /** Effective is the entry of the highest-precedence scope that has one. */
  lemma EffectiveIsFirst<V>(b: Banks<V>, k: string)
    ensures Effective(b, k).None? <==> forall s: Scope :: k !in b.At(s)
    ensures Effective(b, k).Some? ==>
      var w := Effective(b, k).value;
      k in b.At(w.scope) && b.At(w.scope)[k] == w.value && forall s: Scope :: k in b.At(s) ==> Rank(w.scope) <= Rank(s)
  {
    assert b.At(Local) == b.local && b.At(Project) == b.project && b.At(User) == b.user;
  }

  function AllKeys<V>(b: Banks<V>): set<string>
  {
    b.local.Keys + b.project.Keys + b.user.Keys
  }
}
