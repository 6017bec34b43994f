/** The storage layer of server/db.js: a database handle opened once, on the
    location getDatabasePath picks, holding two append-only tables with
    AUTOINCREMENT ids. The SQL statements are modelled by what they select:
    rows are only ever inserted and read back. */
module Db {
  import opened Js
  import opened Sql
  import opened Config

  /** A row of `prompts`. `createdAt` is the CURRENT_TIMESTAMP of the insert,
      modelled as a clock reading in seconds. */
  datatype PromptRow = PromptRow(id: int, originalText: string, createdAt: int)

  /** A row of `variants`. */
  datatype VariantRow = VariantRow(id: int, promptId: int, style: string, refinedText: string, createdAt: int)

  /** The content of one database file: both tables and the largest id each
      has ever issued, which SQLite keeps in `sqlite_sequence`. */
  datatype Tables = Tables(
    prompts: seq<PromptRow>,
    variants: seq<VariantRow>,
    promptSeq: int,
    variantSeq: int)

  /** A database whose tables `CREATE TABLE IF NOT EXISTS` has just created. */
  const NoTables: Tables := Tables([], [], 0, 0)

  /** `{ style, text }`, one element of a history entry's `variants`. */
  datatype VariantSummary = VariantSummary(style: string, text: string)

  /** A prompt row of getHistory with the `variants` property the loop attaches. */
  datatype HistoryRow = HistoryRow(id: int, originalText: string, createdAt: int, variants: seq<VariantSummary>)

  function PromptKey(p: PromptRow): int { p.id }

  function VariantKey(v: VariantRow): int { v.id }

  /** The ids of a table as AUTOINCREMENT issues them: positive, strictly
      increasing in insertion order, and never above the recorded sequence. */
  predicate IdsValid<T>(rows: seq<T>, key: T -> int, last: int) {
    && last >= 0
    && (forall i :: 0 <= i < |rows| ==> 1 <= key(rows[i]) <= last)
    && (forall i, j :: 0 <= i < j < |rows| ==> key(rows[i]) < key(rows[j]))
  }

  predicate TablesValid(t: Tables) {
    IdsValid(t.prompts, PromptKey, t.promptSeq) && IdsValid(t.variants, VariantKey, t.variantSeq)
  }

  // ---------------------------------------------------------------------------
  // INSERT

  /** `INSERT INTO prompts (original_text) VALUES (?)`: AUTOINCREMENT gives the
      new row one more than the largest id the table has ever issued. */
  function AddPrompt(t: Tables, text: string, now: int): (r: Tables)
    ensures r.promptSeq == t.promptSeq + 1
    ensures |r.prompts| == |t.prompts| + 1 && r.prompts[..|t.prompts|] == t.prompts
    ensures r.prompts[|t.prompts|] == PromptRow(r.promptSeq, text, now)
    ensures r.variants == t.variants && r.variantSeq == t.variantSeq
  {
    var id := t.promptSeq + 1;
    t.(prompts := t.prompts + [PromptRow(id, text, now)], promptSeq := id)
  }

  /** `INSERT INTO variants (prompt_id, style, refined_text) VALUES (?, ?, ?)`.
      The foreign key is not enforced: any prompt id is stored as given. */
  function AddVariant(t: Tables, promptId: int, style: string, text: string, now: int): (r: Tables)
    ensures r.variantSeq == t.variantSeq + 1
    ensures |r.variants| == |t.variants| + 1 && r.variants[..|t.variants|] == t.variants
    ensures r.variants[|t.variants|] == VariantRow(r.variantSeq, promptId, style, text, now)
    ensures r.prompts == t.prompts && r.promptSeq == t.promptSeq
  {
    var id := t.variantSeq + 1;
    t.(variants := t.variants + [VariantRow(id, promptId, style, text, now)], variantSeq := id)
  }

  // ---------------------------------------------------------------------------
  // SELECT ... WHERE id = ?

  /** `database.get('SELECT * FROM <table> WHERE id = ?')`: the first row with
      that id, or nothing (`undefined`). */
  function FindById<T>(rows: seq<T>, key: T -> int, id: int): (r: Option<T>)
    ensures r.Some? <==> exists i :: 0 <= i < |rows| && key(rows[i]) == id
    ensures r.Some? ==> r.value in rows && key(r.value) == id
    decreases |rows|
  {
    if rows == [] then None
    else if key(rows[0]) == id then Some(rows[0])
    else
      var r := FindById(rows[1..], key, id);
      assert forall i :: 1 <= i < |rows| ==> rows[i] == rows[1..][i - 1];
      r
  }

  /** With distinct ids, looking up a row's id finds that row. */
  lemma {:induction false} FindByIdFindsRow<T>(rows: seq<T>, key: T -> int, last: int, i: int)
    requires IdsValid(rows, key, last) && 0 <= i < |rows|
    ensures FindById(rows, key, key(rows[i])) == Some(rows[i])
    decreases |rows|
  {
    if i > 0 {
      assert key(rows[0]) < key(rows[i]);
      assert IdsValid(rows[1..], key, last);
      FindByIdFindsRow(rows[1..], key, last, i - 1);
    }
  }

  /** Appending a row leaves every earlier lookup as it was; the new row is
      found only where no earlier row has its id. */
  lemma {:induction false} FindByIdAppend<T>(rows: seq<T>, x: T, key: T -> int, id: int)
    ensures FindById(rows + [x], key, id) ==
      if FindById(rows, key, id).Some? then FindById(rows, key, id)
      else if key(x) == id then Some(x) else None
    decreases |rows|
  {
    if rows != [] {
      assert (rows + [x])[1..] == rows[1..] + [x];
      FindByIdAppend(rows[1..], x, key, id);
    }
  }

  /** An insert issues an id above every id before it, keeps the tables
      valid and changes no existing row. */
  lemma AddPromptKeepsValid(t: Tables, text: string, now: int)
    requires TablesValid(t)
    ensures var t' := AddPrompt(t, text, now);
      && TablesValid(t')
      && (forall i :: 0 <= i < |t.prompts| ==> t.prompts[i].id < t'.promptSeq)
      && t'.prompts[..|t.prompts|] == t.prompts && t'.variants == t.variants
  {
    var t' := AddPrompt(t, text, now);
    assert t'.prompts[..|t.prompts|] == t.prompts;
    assert forall i :: 0 <= i < |t.prompts| ==> t'.prompts[i] == t.prompts[i];
    assert PromptKey(t'.prompts[|t.prompts|]) == t'.promptSeq;
  }

  /** After an insert its id finds the new row and every other id finds what
      it found before. */
  lemma AddPromptLookups(t: Tables, text: string, now: int)
    requires TablesValid(t)
    ensures var t' := AddPrompt(t, text, now);
      && FindById(t'.prompts, PromptKey, t'.promptSeq) == Some(PromptRow(t'.promptSeq, text, now))
      && (forall id :: id != t'.promptSeq ==>
            FindById(t'.prompts, PromptKey, id) == FindById(t.prompts, PromptKey, id))
  {
    var t' := AddPrompt(t, text, now);
    var row := PromptRow(t'.promptSeq, text, now);
    forall id ensures FindById(t'.prompts, PromptKey, id) ==
      if FindById(t.prompts, PromptKey, id).Some? then FindById(t.prompts, PromptKey, id)
      else if PromptKey(row) == id then Some(row) else None
    {
      FindByIdAppend(t.prompts, row, PromptKey, id);
    }
  }

  /** The same two facts for the variants table. */
  lemma AddVariantKeepsValid(t: Tables, promptId: int, style: string, text: string, now: int)
    requires TablesValid(t)
    ensures var t' := AddVariant(t, promptId, style, text, now);
      && TablesValid(t')
      && (forall i :: 0 <= i < |t.variants| ==> t.variants[i].id < t'.variantSeq)
      && t'.variants[..|t.variants|] == t.variants && t'.prompts == t.prompts
  {
    var t' := AddVariant(t, promptId, style, text, now);
    assert t'.variants[..|t.variants|] == t.variants;
    assert forall i :: 0 <= i < |t.variants| ==> t'.variants[i] == t.variants[i];
    assert VariantKey(t'.variants[|t.variants|]) == t'.variantSeq;
  }

  lemma AddVariantLookups(t: Tables, promptId: int, style: string, text: string, now: int)
    requires TablesValid(t)
    ensures var t' := AddVariant(t, promptId, style, text, now);
      && FindById(t'.variants, VariantKey, t'.variantSeq) ==
           Some(VariantRow(t'.variantSeq, promptId, style, text, now))
      && (forall id :: id != t'.variantSeq ==>
            FindById(t'.variants, VariantKey, id) == FindById(t.variants, VariantKey, id))
  {
    var t' := AddVariant(t, promptId, style, text, now);
    var row := VariantRow(t'.variantSeq, promptId, style, text, now);
    forall id ensures FindById(t'.variants, VariantKey, id) ==
      if FindById(t.variants, VariantKey, id).Some? then FindById(t.variants, VariantKey, id)
      else if VariantKey(row) == id then Some(row) else None
    {
      FindByIdAppend(t.variants, row, VariantKey, id);
    }
  }

  // ---------------------------------------------------------------------------
  // SELECT ... WHERE prompt_id = ? ORDER BY style

  /** `ORDER BY style`: TEXT under the BINARY collation. */
  predicate StyleLe(a: VariantRow, b: VariantRow) {
    TextLe(a.style, b.style)
  }

  lemma StyleOrder()
    ensures TotalPreorder(StyleLe)
  {
    forall a: VariantRow, b: VariantRow ensures StyleLe(a, b) || StyleLe(b, a) {
      TextLeTotal(a.style, b.style);
    }
    forall a: VariantRow, b: VariantRow, c: VariantRow | StyleLe(a, b) && StyleLe(b, c)
      ensures StyleLe(a, c)
    {
      TextLeTransitive(a.style, b.style, c.style);
    }
  }

  /** getVariantsForPrompt: the variants stored under `promptId`, each exactly
      as often as it is stored, ordered by style. */
  function VariantsOf(variants: seq<VariantRow>, promptId: int): (r: seq<VariantRow>)
    ensures multiset(r) == multiset(Where(variants, (v: VariantRow) => v.promptId == promptId))
    ensures forall v :: v in r <==> v in variants && v.promptId == promptId
    ensures SortedBy(r, StyleLe)
  {
    StyleOrder();
    var matching := Where(variants, (v: VariantRow) => v.promptId == promptId);
    var r := SortBy(matching, StyleLe);
    assert forall v :: v in r <==> v in multiset(matching);
    r
  }

  // ---------------------------------------------------------------------------
  // SELECT ... FROM prompts ORDER BY created_at DESC LIMIT ?

  /** `ORDER BY created_at DESC`: newer first; rows of the same second tie. */
  predicate NewerOrSame(a: PromptRow, b: PromptRow) {
    a.createdAt >= b.createdAt
  }

  /** The prompts getHistory(limit) selects: the `limit` newest, newest first;
      a negative limit selects them all. */
  function HistoryPrompts(prompts: seq<PromptRow>, limit: int): (r: seq<PromptRow>)
    ensures |r| <= |prompts|
    ensures limit >= 0 ==> |r| == if limit < |prompts| then limit else |prompts|
    ensures limit < 0 ==> multiset(r) == multiset(prompts)
    ensures forall i, j :: 0 <= i < j < |r| ==> r[i].createdAt >= r[j].createdAt
  {
    var sorted := SortBy(prompts, NewerOrSame);
    var r := Limit(sorted, limit);
    assert |sorted| == |multiset(sorted)| == |prompts|;
    assert forall k :: 0 <= k < |r| ==> r[k] == sorted[k];
    assert SortedBy(sorted, NewerOrSame);
    r
  }

  /** In a newest-first order, every row of a prefix is at least as new as
      any row after it. */
  lemma PrefixIsNewest(s: seq<PromptRow>, n: nat, p: PromptRow, i: nat)
    requires SortedBy(s, NewerOrSame) && i < n <= |s| && p in s[n..]
    ensures s[i].createdAt >= p.createdAt
  {
    var j :| 0 <= j < |s[n..]| && s[n..][j] == p;
    assert s[n + j] == p;
  }

  /** The selection is drawn from the table, and no prompt left out of it is
      newer than one taken. */
  lemma HistoryKeepsNewest(prompts: seq<PromptRow>, limit: int)
    ensures var r := HistoryPrompts(prompts, limit);
      && multiset(r) <= multiset(prompts)
      && forall p, i :: p in prompts && p !in r && 0 <= i < |r| ==> r[i].createdAt >= p.createdAt
  {
    var sorted := SortBy(prompts, NewerOrSame);
    var r := HistoryPrompts(prompts, limit);
    assert r == Limit(sorted, limit);
    var rest := sorted[|r|..];
    assert sorted == r + rest;
    assert multiset(sorted) == multiset(r) + multiset(rest);
    forall p, i | p in prompts && p !in r && 0 <= i < |r|
      ensures r[i].createdAt >= p.createdAt
    {
      assert p in multiset(prompts) && p !in multiset(r);
      assert p in multiset(rest);
      PrefixIsNewest(sorted, |r|, p, i);
    }
  }

  /** `variants.map(v => ({ style: v.style, text: v.refined_text }))`. */
  function Summaries(vs: seq<VariantRow>): seq<VariantSummary> {
    seq(|vs|, i requires 0 <= i < |vs| => VariantSummary(vs[i].style, vs[i].refinedText))
  }

  /** A history row with the prompt's variants attached. */
  function Annotated(p: PromptRow, variants: seq<VariantRow>): HistoryRow {
    HistoryRow(p.id, p.originalText, p.createdAt, Summaries(VariantsOf(variants, p.id)))
  }

  /** A history row as the prompts query returns it, before the loop runs. */
  function Bare(p: PromptRow): HistoryRow {
    HistoryRow(p.id, p.originalText, p.createdAt, [])
  }

  /** The `limit = 50` default of getHistory. */
  function HistoryLimit(limit: Option<int>): (n: int)
    ensures limit.None? ==> n == 50
    ensures limit.Some? ==> n == limit.value
  {
    if limit.Some? then limit.value else 50
  }

  // ---------------------------------------------------------------------------
  // initDatabase

  /** What `open` finds at a path: the tables a file already holds, created
      empty when the file is new; an in-memory database is always new. */
  function OpenTables(path: string, disk: map<string, Tables>): (t: Tables)
    ensures path == MemoryPath ==> t == NoTables
    ensures path != MemoryPath && path in disk ==> t == disk[path]
    ensures path !in disk ==> t == NoTables
  {
    if path == MemoryPath || path !in disk then NoTables else disk[path]
  }

  /** The location in use once initDatabase has run. */
  function InfoAfterInit(info: Option<DbInfo>, env: Environment): DbInfo {
    if info.Some? then info.value else GetDatabasePath(env)
  }

  /** The tables in use once initDatabase has run. */
  function TablesAfterInit(info: Option<DbInfo>, tables: Tables, env: Environment, disk: map<string, Tables>): Tables {
    if info.Some? then tables else OpenTables(GetDatabasePath(env).path, disk)
  }

  /** initDatabase is idempotent: a second run finds the handle set and
      changes nothing. */
  lemma InitTwiceIsInitOnce(info: Option<DbInfo>, tables: Tables, env: Environment, disk: map<string, Tables>)
    ensures var info' := Some(InfoAfterInit(info, env));
      var tables' := TablesAfterInit(info, tables, env, disk);
      && InfoAfterInit(info', env) == info'.value
      && TablesAfterInit(info', tables', env, disk) == tables'
  {
  }

  /** The module state of server/db.js: `dbInfo` (set together with the `db`
      handle) and the content of the open database. `disk` is what the files
      held when the process started. */
  class Store {
    const env: Environment
    const disk: map<string, Tables>
    var info: Option<DbInfo>
    var tables: Tables

    ghost predicate Valid()
      reads this
    {
      && TablesValid(tables)
      && (forall path :: path in disk ==> TablesValid(disk[path]))
      && (info.None? ==> tables == NoTables)
    }

    constructor(env: Environment, disk: map<string, Tables>)
      requires forall path :: path in disk ==> TablesValid(disk[path])
      ensures Valid()
      ensures this.env == env && this.disk == disk
      ensures info.None? && tables == NoTables
    {
      this.env := env;
      this.disk := disk;
      info := None;
      tables := NoTables;
    }

    /** initDatabase: resolves the location and opens it the first time only. */
    method InitDatabase()
      requires Valid()
      modifies this
      ensures Valid()
      ensures info == Some(InfoAfterInit(old(info), env))
      ensures tables == TablesAfterInit(old(info), old(tables), env, disk)
      ensures old(info).Some? ==> info == old(info) && tables == old(tables)
    {
      if info.Some? {
        return;
      }
      var resolved := GetDatabasePath(env);
      info := Some(resolved);
      tables := OpenTables(resolved.path, disk);
    }

    /** getDatabaseInfo: the location in use, initialising first if needed. */
    method GetDatabaseInfo() returns (r: DbInfo)
      requires Valid()
      modifies this
      ensures Valid()
      ensures r == InfoAfterInit(old(info), env) && info == Some(r)
      ensures tables == TablesAfterInit(old(info), old(tables), env, disk)
    {
      if info.None? {
        InitDatabase();
      }
      r := info.value;
    }

    /** savePrompt: inserts the text and returns the id of the new row. */
    method SavePrompt(text: string, now: int) returns (id: int)
      requires Valid()
      modifies this
      ensures Valid()
      ensures info == Some(InfoAfterInit(old(info), env))
      ensures tables == AddPrompt(TablesAfterInit(old(info), old(tables), env, disk), text, now)
      ensures id == tables.promptSeq
    {
      InitDatabase();
      AddPromptKeepsValid(tables, text, now);
      tables := AddPrompt(tables, text, now);
      id := tables.promptSeq;
    }

    /** saveVariant: inserts a variant and returns the id of the new row. */
    method SaveVariant(promptId: int, style: string, text: string, now: int) returns (id: int)
      requires Valid()
      modifies this
      ensures Valid()
      ensures info == Some(InfoAfterInit(old(info), env))
      ensures tables == AddVariant(TablesAfterInit(old(info), old(tables), env, disk), promptId, style, text, now)
      ensures id == tables.variantSeq
    {
      InitDatabase();
      AddVariantKeepsValid(tables, promptId, style, text, now);
      tables := AddVariant(tables, promptId, style, text, now);
      id := tables.variantSeq;
    }

    /** getPrompt: the prompt row with that id, if any. */
    method GetPrompt(promptId: int) returns (r: Option<PromptRow>)
      requires Valid()
      modifies this
      ensures Valid()
      ensures info == Some(InfoAfterInit(old(info), env))
      ensures tables == TablesAfterInit(old(info), old(tables), env, disk)
      ensures r == FindById(tables.prompts, PromptKey, promptId)
    {
      InitDatabase();
      r := FindById(tables.prompts, PromptKey, promptId);
    }

    /** getVariant: the variant row with that id, if any. */
    method GetVariant(variantId: int) returns (r: Option<VariantRow>)
      requires Valid()
      modifies this
      ensures Valid()
      ensures info == Some(InfoAfterInit(old(info), env))
      ensures tables == TablesAfterInit(old(info), old(tables), env, disk)
      ensures r == FindById(tables.variants, VariantKey, variantId)
    {
      InitDatabase();
      r := FindById(tables.variants, VariantKey, variantId);
    }

    /** getVariantsForPrompt. */
    method GetVariantsForPrompt(promptId: int) returns (r: seq<VariantRow>)
      requires Valid()
      modifies this
      ensures Valid()
      ensures info == Some(InfoAfterInit(old(info), env))
      ensures tables == TablesAfterInit(old(info), old(tables), env, disk)
      ensures r == VariantsOf(tables.variants, promptId)
    {
      InitDatabase();
      r := VariantsOf(tables.variants, promptId);
    }

    /** getHistory: selects the newest prompts, then sets each one's
        `variants` in place, one query per prompt. */
    method GetHistory(limit: Option<int>) returns (history: seq<HistoryRow>)
      requires Valid()
      modifies this
      ensures Valid()
      ensures info == Some(InfoAfterInit(old(info), env))
      ensures tables == TablesAfterInit(old(info), old(tables), env, disk)
      ensures var selected := HistoryPrompts(tables.prompts, HistoryLimit(limit));
        && |history| == |selected|
        && forall i :: 0 <= i < |history| ==> history[i] == Annotated(selected[i], tables.variants)
    {
      InitDatabase();
      var selected := HistoryPrompts(tables.prompts, HistoryLimit(limit));
      history := Annotate(selected);
    }

    /** The loop of getHistory: every selected prompt gets the summaries of
        its variants, set in place, one query per prompt. */
    method Annotate(selected: seq<PromptRow>) returns (history: seq<HistoryRow>)
      ensures |history| == |selected|
      ensures forall i :: 0 <= i < |history| ==> history[i] == Annotated(selected[i], tables.variants)
    {
      history := seq(|selected|, i requires 0 <= i < |selected| => Bare(selected[i]));
      for i := 0 to |history|
        invariant |history| == |selected|
        invariant forall k :: 0 <= k < i ==> history[k] == Annotated(selected[k], tables.variants)
        invariant forall k :: i <= k < |history| ==> history[k] == Bare(selected[k])
      {
        var row := history[i];
        assert row.id == selected[i].id;
        var variants := VariantsOf(tables.variants, row.id);
        history := history[i := row.(variants := Summaries(variants))];
        assert history[i] == Annotated(selected[i], tables.variants);
      }
    }
  }
}
