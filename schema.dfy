/** The database schema as `init_db` leaves it: three `CREATE TABLE IF NOT
    EXISTS` statements followed by `ensure_column` migrations that add each
    later column to a table created by an older version. A table is its
    list of columns in declaration order. */
module Schema {

  datatype Column = Column(name: string, sqlType: string)

  /** One `ensure_column(conn, table, column, column_type)` call. */
  datatype Migration = Migration(table: string, column: string, sqlType: string)

  type Tables = map<string, seq<Column>>

  /** `{row["name"] for row in conn.execute(f"PRAGMA table_info({table})")}`. */
  function Names(cols: seq<Column>): (r: seq<string>)
    ensures |r| == |cols|
    ensures forall i :: 0 <= i < |cols| ==> r[i] == cols[i].name
  {
    if cols == [] then [] else [cols[0].name] + Names(cols[1..])
  }

  const WatchedColumns: seq<Column> := [
    Column("id", "INTEGER PRIMARY KEY AUTOINCREMENT"),
    Column("title", "TEXT NOT NULL"),
    Column("comment", "TEXT NOT NULL"),
    Column("score", "INTEGER NOT NULL"),
    Column("image_url", "TEXT NOT NULL"),
    Column("watch_date", "TEXT NOT NULL"),
    Column("content_type", "TEXT NOT NULL"),
    Column("season", "INTEGER"),
    Column("synopsis", "TEXT"),
    Column("release_year", "INTEGER"),
    Column("runtime", "INTEGER"),
    Column("genres", "TEXT"),
    Column("tmdb_id", "INTEGER"),
    Column("tmdb_rating", "REAL"),
    Column("poster_url", "TEXT")]

  const WantToWatchColumns: seq<Column> := [
    Column("id", "INTEGER PRIMARY KEY AUTOINCREMENT"),
    Column("title", "TEXT NOT NULL"),
    Column("image_url", "TEXT NOT NULL"),
    Column("launch_date", "TEXT NOT NULL"),
    Column("excitement", "INTEGER NOT NULL"),
    Column("content_type", "TEXT NOT NULL"),
    Column("season", "INTEGER"),
    Column("synopsis", "TEXT"),
    Column("release_year", "INTEGER"),
    Column("runtime", "INTEGER"),
    Column("genres", "TEXT"),
    Column("tmdb_id", "INTEGER"),
    Column("tmdb_rating", "REAL"),
    Column("poster_url", "TEXT")]

  /** The foreign key to `watched(id)` is declared with `ON DELETE CASCADE`,
      but the connections never switch foreign keys on. */
  const BlogPostColumns: seq<Column> := [
    Column("id", "INTEGER PRIMARY KEY AUTOINCREMENT"),
    Column("watched_id", "INTEGER NOT NULL"),
    Column("title", "TEXT NOT NULL"),
    Column("slug", "TEXT NOT NULL UNIQUE"),
    Column("body", "TEXT NOT NULL"),
    Column("created_at", "TEXT NOT NULL")]

  /** The eighteen `ensure_column` calls, in the order `init_db` makes them. */
  const Migrations: seq<Migration> := [
    Migration("watched", "season", "INTEGER"),
    Migration("want_to_watch", "season", "INTEGER"),
    Migration("watched", "synopsis", "TEXT"),
    Migration("watched", "release_year", "INTEGER"),
    Migration("watched", "runtime", "INTEGER"),
    Migration("watched", "genres", "TEXT"),
    Migration("watched", "tmdb_id", "INTEGER"),
    Migration("watched", "tmdb_rating", "REAL"),
    Migration("watched", "poster_url", "TEXT"),
    Migration("watched", "top_rank", "INTEGER"),
    Migration("watched", "release_date", "TEXT"),
    Migration("want_to_watch", "synopsis", "TEXT"),
    Migration("want_to_watch", "release_year", "INTEGER"),
    Migration("want_to_watch", "runtime", "INTEGER"),
    Migration("want_to_watch", "genres", "TEXT"),
    Migration("want_to_watch", "tmdb_id", "INTEGER"),
    Migration("want_to_watch", "tmdb_rating", "REAL"),
    Migration("want_to_watch", "poster_url", "TEXT")]

  /** The effect of one `ensure_column` on an existing table: the column is
      appended when the table lacks it and nothing changes otherwise. */
  function AddColumn(tables: Tables, m: Migration): Tables
    requires m.table in tables
  {
    if m.column in Names(tables[m.table]) then tables
    else tables[m.table := tables[m.table] + [Column(m.column, m.sqlType)]]
  }

  /** Every migration names an existing table. */
  predicate Applicable(tables: Tables, ms: seq<Migration>) {
    forall i :: 0 <= i < |ms| ==> ms[i].table in tables
  }

  /** Every migration of `init_db` is on `watched` or `want_to_watch`. */
  lemma MigrationsApplicable(tables: Tables)
    requires "watched" in tables && "want_to_watch" in tables
    ensures Applicable(tables, Migrations)
  {
    forall i | 0 <= i < |Migrations| ensures Migrations[i].table in tables {
      assert Migrations[i].table in {"watched", "want_to_watch"};
    }
  }

  /** The migrations `ms` applied one after another. */
  function Migrate(tables: Tables, ms: seq<Migration>): (r: Tables)
    requires Applicable(tables, ms)
    ensures r.Keys == tables.Keys
  {
    if ms == [] then tables else AddColumn(Migrate(tables, ms[..|ms| - 1]), ms[|ms| - 1])
  }

  /** Every migrated column is there afterwards. */
  predicate Migrated(tables: Tables, ms: seq<Migration>) {
    forall i :: 0 <= i < |ms| ==> ms[i].table in tables && ms[i].column in Names(tables[ms[i].table])
  }

  /** Migrations only append: each table starts with the columns it had. */
  lemma {:induction false} MigrateExtends(tables: Tables, ms: seq<Migration>, t: string)
    requires Applicable(tables, ms) && t in tables
    ensures |tables[t]| <= |Migrate(tables, ms)[t]|
    ensures Migrate(tables, ms)[t][..|tables[t]|] == tables[t]
  {
    if ms != [] {
      var before := Migrate(tables, ms[..|ms| - 1]);
      MigrateExtends(tables, ms[..|ms| - 1], t);
      assert before[t][..|tables[t]|] == tables[t];
      var after := Migrate(tables, ms);
      assert after[t][..|before[t]|] == before[t];
      assert after[t][..|tables[t]|] == before[t][..|tables[t]|];
    }
  }

  /** A column once present stays present. */
  lemma KeepsNames(tables: Tables, m: Migration, t: string, name: string)
    requires m.table in tables && t in tables && name in Names(tables[t])
    ensures name in Names(AddColumn(tables, m)[t])
  {
    var cols := tables[t];
    var i :| 0 <= i < |cols| && Names(cols)[i] == name;
    var after := AddColumn(tables, m)[t];
    assert after[i] == cols[i];
  }

  /** After the migrations every migrated column exists. */
  lemma {:induction false} MigrateAddsAll(tables: Tables, ms: seq<Migration>)
    requires Applicable(tables, ms)
    ensures Migrated(Migrate(tables, ms), ms)
  {
    if ms != [] {
      var n := |ms| - 1;
      var init := ms[..n];
      MigrateAddsAll(tables, init);
      var before := Migrate(tables, init);
      var after := Migrate(tables, ms);
      forall i | 0 <= i < |ms| ensures ms[i].column in Names(after[ms[i].table]) {
        if i < n {
          assert init[i] == ms[i];
          KeepsNames(before, ms[n], ms[i].table, ms[i].column);
        } else {
          var cols := before[ms[n].table];
          if ms[n].column !in Names(cols) {
            assert Names(after[ms[n].table])[|cols|] == ms[n].column;
          }
        }
      }
    }
  }

  /** Migrations whose columns all exist change nothing. */
  lemma {:induction false} MigrateNothingNew(tables: Tables, ms: seq<Migration>)
    requires Migrated(tables, ms)
    ensures Applicable(tables, ms) && Migrate(tables, ms) == tables
  {
    if ms != [] {
      MigrateNothingNew(tables, ms[..|ms| - 1]);
    }
  }

  /** Running the migrations twice is running them once. */
  lemma MigrateIdempotent(tables: Tables, ms: seq<Migration>)
    requires Applicable(tables, ms)
    ensures Migrate(Migrate(tables, ms), ms) == Migrate(tables, ms)
  {
    MigrateAddsAll(tables, ms);
    MigrateNothingNew(Migrate(tables, ms), ms);
  }

  /** The three `CREATE TABLE IF NOT EXISTS` statements: a table that exists
      is kept as it is, even when it lacks columns of the newer layout. */
  function CreateTables(tables: Tables): (r: Tables)
    ensures "watched" in r && "want_to_watch" in r && "blog_posts" in r
    ensures r.Keys == tables.Keys + {"watched", "want_to_watch", "blog_posts"}
    ensures forall t :: t in tables ==> r[t] == tables[t]
    ensures "watched" !in tables ==> r["watched"] == WatchedColumns
    ensures "want_to_watch" !in tables ==> r["want_to_watch"] == WantToWatchColumns
    ensures "blog_posts" !in tables ==> r["blog_posts"] == BlogPostColumns
  {
    var t1 := if "watched" in tables then tables else tables["watched" := WatchedColumns];
    var t2 := if "want_to_watch" in t1 then t1 else t1["want_to_watch" := WantToWatchColumns];
    if "blog_posts" in t2 then t2 else t2["blog_posts" := BlogPostColumns]
  }

  /** What the migrations do to the freshly created tables. */
  lemma InitDbFacts(tables: Tables, start: Tables)
    requires start == CreateTables(tables)
    ensures Applicable(start, Migrations)
    ensures Migrated(Migrate(start, Migrations), Migrations)
    ensures forall t :: t in tables ==>
              |tables[t]| <= |Migrate(start, Migrations)[t]|
              && Migrate(start, Migrations)[t][..|tables[t]|] == tables[t]
    ensures ("watched" in tables && "want_to_watch" in tables && "blog_posts" in tables
             && Migrated(tables, Migrations)) ==> Migrate(start, Migrations) == tables
  {
    MigrationsApplicable(start);
    MigrateAddsAll(start, Migrations);
    forall t | t in tables
      ensures |tables[t]| <= |Migrate(start, Migrations)[t]|
              && Migrate(start, Migrations)[t][..|tables[t]|] == tables[t]
    {
      MigrateExtends(start, Migrations, t);
    }
    if "watched" in tables && "want_to_watch" in tables && "blog_posts" in tables {
      assert start == tables;
      if Migrated(tables, Migrations) {
        MigrateNothingNew(start, Migrations);
      }
    }
  }

  /** The SQLite file behind the store, seen as its schema. */
  class Database {
    var tables: Tables

    constructor (existing: Tables)
      ensures tables == existing
    {
      tables := existing;
    }

    /** `ensure_column`: the column is added only when the table does not
        already have it. `false` stands for the error a missing table
        raises, which leaves the schema as it was. */
    method EnsureColumn(table: string, column: string, sqlType: string) returns (ok: bool)
      modifies this
      ensures ok <==> table in old(tables)
      ensures ok ==> tables == AddColumn(old(tables), Migration(table, column, sqlType))
      ensures !ok ==> tables == old(tables)
    {
      if table !in tables {
        return false;
      }
      var existing := Names(tables[table]);
      if column !in existing {
        tables := tables[table := tables[table] + [Column(column, sqlType)]];
      }
      ok := true;
    }

    /** `init_db`: creates the missing tables, then runs every migration in
        order. Afterwards all migrated columns exist, every table that
        existed keeps its columns as a prefix, and a database `init_db` has
        already run on is left unchanged. */
    method InitDb()
      modifies this
      ensures tables == Migrate(CreateTables(old(tables)), Migrations)
      ensures Migrated(tables, Migrations)
      ensures forall t :: t in old(tables) ==>
                |old(tables)[t]| <= |tables[t]| && tables[t][..|old(tables)[t]|] == old(tables)[t]
      ensures ("watched" in old(tables) && "want_to_watch" in old(tables) && "blog_posts" in old(tables)
               && Migrated(old(tables), Migrations)) ==> tables == old(tables)
    {
      var start := CreateTables(tables);
      MigrationsApplicable(start);
      tables := start;
      var i := 0;
      while i < |Migrations|
        invariant 0 <= i <= |Migrations|
        invariant Applicable(start, Migrations[..i])
        invariant tables == Migrate(start, Migrations[..i])
      {
        var m := Migrations[i];
        assert Migrations[..i + 1][..i] == Migrations[..i];
        var ok := EnsureColumn(m.table, m.column, m.sqlType);
        i := i + 1;
      }
      assert Migrations[..i] == Migrations;
      InitDbFacts(old(tables), start);
    }
  }
}
