# Movie and series tracker — a Dafny model

The application keeps three SQLite tables:

- `watched` holds titles the owner has seen, with a score, a comment, an optional top-list rank and metadata.
- `want_to_watch` holds titles the owner plans to see, with an excitement level.
- `blog_posts` holds posts about watched titles, each addressed by a unique slug.

Every write goes through an HTTP Basic access gate. Metadata comes from TMDB, either by a search or by a details lookup. Four server-rendered pages show the data: the home page, the blog list (`/blog`), the top list and a single blog post.

This project models that behaviour in Dafny, one module per concern:

- `Text`: the Python string and integer behaviour the code relies on. This is truthiness, `strip`, `startswith`, `int(...)` on a string, `str(n)` and `join`.
- `Slug`: `normalize_slug`, with proofs of the slug shape and of idempotence.
- `Models`: the three record types and their range constraints, plus the calendar date.
- `Auth`: the decision made by `get_current_username`.
- `Tmdb`: poster URLs, years, request building with its two credential styles, and the search and details mappings. `tmdb_request` writes into the caller's `params` dictionary in place, so that dictionary is a class. The search filtering loop is a method proved equal to a reference function.
- `Forms`: the rules the two create handlers apply before anything is stored.
- `Tables` and `Queries`: rows as sequences with key-wise insert, update and delete, and the list queries as a filter followed by a sort.
- `Store`: the three tables as one class whose methods are the write handlers, with the invariants they preserve. These are unique ids, unique and normalised slugs, and the `AUTOINCREMENT` high-water marks.
- `Schema`: `ensure_column` and `init_db` on a class holding the table layouts.
- `Pages`: `read_root`, `blog`, `top_list` and `blog_post`. The in-place `blog_slug` decoration is an array loop.

Configuration values are parameters: `BASIC_AUTH_*` and `TMDB_API_KEY`. So are the upstream answer (or the text of the exception the call raised), the uuid-based file name token and the UTC clock reading.

Two behaviours of the code worth noting:

- A missing TMDB key inside search or details is caught by the handler's `except Exception`. It becomes a 502 whose detail carries the 500's text, not a bare 500.
- The update handlers store `season` as sent. They do not force it to none for non-series.

## Model

| member | source | states |
|---|---|---|
| Slug.NormalizeSlug | app/routers/items.py:198-203 | the result only has `a-z`, `0-9` and `-`, never `--`, and neither starts nor ends with `-` |
| Slug.NormalizeIdempotent | app/routers/items.py:198-203 | normalising twice equals normalising once |
| Slug.SlugIsNormal | app/routers/items.py:198-203 | a string already in slug shape is left unchanged |
| Slug.MiddleStagesKeep | app/routers/items.py:199-202 | lower-casing, whitespace replacement, character filtering and hyphen collapsing all leave a slug unchanged |
| Slug.CollapseHyphens | app/routers/items.py:202 | the result has no double hyphen, keeps the first character and keeps slug characters |
| Slug.CollapseHyphensFacts | app/routers/items.py:202 | collapsing keeps every character other than `-`, in order; hyphens remain iff there were any |
| Slug.CollapseHyphensKeeps | app/routers/items.py:202 | a string without a double hyphen is left unchanged; with Slug.CollapseHyphensDouble this fixes the result for every input |
| Slug.CollapseHyphensDouble | app/routers/items.py:202 | a run of two hyphens collapses as a single hyphen does, wherever it sits |
| Slug.KeepSlugChars | app/routers/items.py:201 | the result has only slug characters |
| Slug.KeepSlugCharsAppend | app/routers/items.py:201 | filtering a concatenation filters each part |
| Slug.KeepSlugCharsMembers | app/routers/items.py:201 | a character is in the result iff it is in the input and is a slug character |
| Slug.SpacesToHyphen | app/routers/items.py:200 | no whitespace is left in the result |
| Slug.SpacesToHyphenRun | app/routers/items.py:200 | a whole whitespace run, up to the next other character or the end, becomes exactly one hyphen |
| Slug.SpacesToHyphenKeeps | app/routers/items.py:200 | a string without whitespace is left unchanged |
| Slug.Lower | app/routers/items.py:199 | same length; each ASCII capital becomes its small letter; whitespace stays whitespace and nothing else becomes it; a character is a slug character afterwards iff it was one, or was an ASCII capital, KELVIN SIGN or dotted capital I |
| Slug.NormalizeExample | app/routers/items.py:198-203 | `"My   Show!!"` normalises to `"my-show"` |
| Text.Trim | app/routers/items.py:199 | neither end of the result is in the stripped set; it is no longer than the input |
| Text.TrimSlice | app/routers/items.py:199 | the stripped string is a slice of the input, and everything removed on either side is in the set |
| Text.TrimStartFacts | app/routers/items.py:199 | `lstrip` keeps a suffix, removes only characters from the set, and stops at a character outside it |
| Text.TrimEndFacts | app/routers/items.py:199 | `rstrip` keeps a prefix, removes only characters from the set, and stops at a character outside it |
| Text.ParseDigits | app/routers/items.py:193 | `int` of a non-empty run of digits is the number they denote when there are at most 4300 of them, and a `ValueError` otherwise |
| Text.ParseIntRejects | app/routers/items.py:193-195 | a character that is not a digit, whitespace, sign or underscore makes `int` fail |
| Tmdb.PosterUrl | app/routers/items.py:184-187 | none exactly when the path is none or empty; otherwise the fixed base followed by the path |
| Tmdb.FirstSegment | app/routers/items.py:193 | the prefix before the first `-`, which holds no `-` itself |
| Tmdb.TmdbYear | app/routers/items.py:189-195 | a none or empty date gives none and never fails |
| Tmdb.YearOfDigits | app/routers/items.py:189-195 | a date whose leading segment is digits gives the number those digits denote, or no year when there are more than 4300 digits |
| Tmdb.YearOfIsoDate | app/routers/items.py:189-195 | the year of the ISO text of a date is that date's year |
| Tmdb.YearRejectsNonInteger | app/routers/items.py:192-195 | a leading segment that `int` cannot accept gives none |
| Models.IsoYearDigits | app/routers/items.py:329 | the first four characters of the stored date text are the year |
| Models.IsoTextParts | app/models/models.py:11 | the stored text of a date is the zero-padded year, month and day joined by `-` |
| Models.IsoTextOrder | app/routers/items.py:272 | one date's stored text sorts before another's iff the date is earlier, so ordering by the text column is chronological |
| Text.LexAppend | app/routers/items.py:272 | texts made of parts of equal length compare by the first parts, then by the second |
| Text.NumeralOrder | app/routers/items.py:272 | zero-padded numerals of one width compare as text as the numbers compare, and are equal iff the numbers are |
| Tmdb.Assign | app/routers/items.py:174 | a dictionary write: the key gets the value, other keys are unchanged, and a new key goes last |
| Tmdb.Params.Put | app/routers/items.py:174 | the dictionary becomes the old one with the key assigned |
| Tmdb.BuildRequest | app/routers/items.py:159-177 | an `eyJ` key gives a Bearer Authorization header and leaves the parameters alone; any other key adds `api_key` and sends no Authorization header |
| Tmdb.TmdbRequest | app/routers/items.py:155-177 | a missing key is the 500 with nothing written; otherwise it builds the request; the caller's params gain `api_key` exactly for a non-token key |
| Tmdb.Summaries | app/routers/items.py:558-578 | the answer holds only movies and series, only of the requested kind, and has no more entries than the hits |
| Tmdb.SummariesAppend | app/routers/items.py:558-578 | upstream order is kept: the answer for `a + b` is the answer for `a` followed by the answer for `b` |
| Tmdb.SummariesExact | app/routers/items.py:559-566 | every kept hit appears in summarised form (title falling back to name), and nothing else appears |
| Tmdb.CollectSummaries | app/routers/items.py:558-578 | the append loop produces exactly the reference answer |
| Tmdb.Search | app/routers/items.py:544-580 | a blank query answers `[]` with nothing sent; a missing key or a failed call is 502 with the exception text; otherwise the summaries of the upstream hits |
| Tmdb.Details | app/routers/items.py:582-615 | an unsupported kind is 400 with nothing sent; a missing key or a failed call is 502; content type is "Movie" iff the kind is movie; runtime is the movie runtime or the first episode runtime |
| Tmdb.DetailsExamples | app/routers/items.py:595-615 | a movie with runtime 120 and genre "Drama", and a series with episode runtimes [45, 42], map as expected |
| Forms.BlankToNone | app/routers/items.py:297-298 | a whitespace-only or missing URL becomes none; otherwise the stripped, non-empty URL |
| Forms.SeasonFor | app/routers/items.py:299-300 | the season is dropped unless the type is "TV Series" |
| Forms.ChooseImages | app/routers/items.py:301-313 | 400 iff there is neither a non-blank URL nor a named file; a file sets both image and poster to the stored path; a URL alone sets the poster to the given poster if truthy, else to the URL |
| Forms.PrepareWatched | app/routers/items.py:297-345 | the 400 rule, the season rule and the image rules, with every other field taken from the form under the new id |
| Forms.PrepareWantToWatch | app/routers/items.py:440-485 | the same rules for a watch-list row |
| Forms.PreparedWatchedValid | app/models/models.py:9-13 | a prepared row breaks `Watched`'s ranges exactly when the score is outside 0..10 or a series season is below 1 |
| Forms.PreparedWantToWatchValid | app/models/models.py:29-31 | a prepared row breaks `WantToWatch`'s ranges exactly when excitement is outside 1..10 or a series season is below 1 |
| Auth.CompareDigest | app/routers/auth.py:43-44 | equality on ASCII strings; a failure (`TypeError`) when either string is not ASCII |
| Auth.GetCurrentUsername | app/routers/auth.py:26-58 | missing configuration is 500 whatever was supplied; success iff both values match, returning the supplied username; any mismatch is the one 401 |
| Auth.NoHintWhichHalfFailed | app/routers/auth.py:43-55 | a wrong username, a wrong password and both wrong all get the identical 401 |
| Tables.Ids | main.py:22 | one id per row, in row order |
| Tables.RowCount | app/routers/items.py:396 | the rows an id matches: zero exactly when no row has the id |
| Tables.KeyedRowCount | app/routers/items.py:396 | in a table with unique ids, a statement by id touches at most one row |
| Tables.UpdateWhere | app/routers/items.py:370-373 | the rows with the id are replaced, the others are unchanged; a missing id changes nothing |
| Tables.UpdateWhereMember | app/routers/items.py:370-373 | every row after an update is the new row or an untouched old row |
| Tables.DeleteWhere | app/routers/items.py:404 | what remains is exactly the old rows without the id |
| Tables.DeleteWhereCount | app/routers/items.py:404-406 | the id is gone, and the table shrank by the number of rows it matched |
| Tables.DeleteWhereNothing | app/routers/items.py:404-407 | deleting a missing id changes nothing |
| Tables.InsertKeyed | app/routers/items.py:315-344 | appending a row under the next id keeps ids unique and within the high-water mark |
| Tables.UpdateKeyed | app/routers/items.py:370-373 | an update by id keeps the ids unique and unchanged |
| Tables.DeleteKeyed | app/routers/items.py:404 | a delete keeps the ids unique |
| Queries.Filter | app/routers/items.py:257 | the rows that pass the condition, and only those |
| Queries.FilterMember | app/routers/items.py:257 | a row is in a filter iff it is in the table and passes the condition |
| Queries.SortBy | app/routers/items.py:258 | `ORDER BY` gives a sorted permutation of its input |
| Queries.TopList | app/routers/items.py:249-261 | exactly the rows with a rank, as a permutation, by rank ascending |
| Queries.WatchedList | app/routers/items.py:263-275 | exactly the rows without a rank, most recently watched first |
| Queries.WantToWatchList | app/routers/items.py:410-421 | every row, latest launch date first |
| Queries.ListsPartition | app/routers/items.py:249-275 | the top list and the watched list together are the table, with nothing lost or doubled |
| Queries.TopRoute | app/routers/items.py:249-261 | the response is the top list iff every ranked row meets the record ranges; otherwise a 500 |
| Queries.WatchedRoute | app/routers/items.py:263-275 | the response is the watched list iff every unranked row meets the record ranges; otherwise a 500 |
| Queries.WantToWatchRoute | app/routers/items.py:410-421 | the response is the watch-list iff every row meets the record ranges; otherwise a 500 |
| Queries.InvalidRowBreaksRoute | app/routers/items.py:249-275 | one stored row outside the record ranges turns the list it belongs to into a 500 |
| Store.PostBySlug | app/routers/items.py:233-246 | a post with exactly the slug, joined to its watched row; none only when no such joined pair exists |
| Store.WatchedRow | app/routers/items.py:241 | the watched row with the given id |
| Store.JoinedPosts | app/routers/items.py:220-231 | exactly the posts whose watched row exists |
| Store.BlogCreate | app/routers/items.py:621-663 | an empty normalised slug is 400 first; a missing watched title is 400; a taken slug is 400; otherwise the row with the normalised slug |
| Store.BlogUpdate | app/routers/items.py:665-696 | an empty normalised slug is 400 first; a slug held by another post is 400; a missing post is 404; otherwise the body with the path id and normalised slug |
| Store.UpdateUniqueSlugs | app/routers/items.py:675-690 | replacing a post by one whose slug no other post uses keeps slugs unique |
| Store.AppendPostSlugs | app/routers/items.py:641-654 | appending a post with a normalised, unused slug keeps the slug invariants |
| Store.UpdateNormalSlugs | app/routers/items.py:667-687 | an update with a normalised slug keeps every slug normalised |
| Store.AppendPostValid | app/routers/items.py:641-650 | an accepted create keeps the blog table's invariant |
| Store.UpdatePostValid | app/routers/items.py:672-692 | an accepted update keeps the blog table's invariant |
| Store.DeletePostValid | app/routers/items.py:701 | a delete keeps the blog table's invariant |
| Store.DeleteSubset | app/routers/items.py:701 | a delete leaves only old rows |
| Store.OrphanedPost | app/routers/items.py:92 | deleting a watched title leaves its post in place: the slug stays taken, yet the post page finds nothing |
| Store.Store.constructor | app/routers/items.py:42-95 | a fresh database has three empty tables |
| Store.Store.AddWatched | app/routers/items.py:277-363 | a rejected form changes nothing; otherwise the row goes in under the next id, and a range violation is then 500 with the row kept; the other tables are unchanged |
| Store.Store.AddWantToWatch | app/routers/items.py:423-500 | the same for the watch-list |
| Store.Store.UpdateWatched | app/routers/items.py:365-399 | row `k` becomes the body under id `k`, with the season as sent; a missing id is 404 and changes nothing |
| Store.Store.UpdateWantToWatch | app/routers/items.py:502-533 | the same for the watch-list |
| Store.Store.DeleteWatched | app/routers/items.py:401-408 | row `k` is removed, and a missing id is 404 with nothing changed; posts about the title stay |
| Store.Store.DeleteWantToWatch | app/routers/items.py:535-542 | the same for the watch-list |
| Store.Store.AddBlogPost | app/routers/items.py:621-663 | answers as `BlogCreate` does; only an accepted post is appended, under the next id |
| Store.Store.UpdateBlogPost | app/routers/items.py:665-696 | answers as `BlogUpdate` does; only an accepted update replaces post `k` |
| Store.Store.DeleteBlogPost | app/routers/items.py:698-705 | post `k` is removed; a missing id is 404 with nothing changed |
| Store.Store.BlogSlugMap | app/routers/items.py:205-218 | no ids gives `{}`; a title is a key iff its id was asked for and some post is about it, and its value is such a post's slug |
| Schema.Names | app/routers/items.py:144 | the column names of a table, in order |
| Schema.Migrate | app/routers/items.py:96-113 | running migrations keeps the set of tables |
| Schema.MigrationsApplicable | app/routers/items.py:96-113 | every migration is on `watched` or `want_to_watch` |
| Schema.MigrateExtends | app/routers/items.py:143-146 | migrations only append columns |
| Schema.KeepsNames | app/routers/items.py:143-146 | a column, once present, stays |
| Schema.MigrateAddsAll | app/routers/items.py:96-113 | after the migrations, every migrated column exists |
| Schema.MigrateNothingNew | app/routers/items.py:143-146 | migrations whose columns exist change nothing |
| Schema.MigrateIdempotent | app/routers/items.py:96-113 | running the migrations twice is running them once |
| Schema.CreateTables | app/routers/items.py:42-95 | all three tables exist afterwards, existing ones are untouched, and missing ones get the base layout |
| Schema.InitDbFacts | app/routers/items.py:39-114 | the migrated tables have every column and keep old layouts as prefixes; an up-to-date database is left as is |
| Schema.Database.constructor | app/routers/items.py:34-37 | the database holds the given layout |
| Schema.Database.EnsureColumn | app/routers/items.py:143-146 | the column is appended only when absent; a missing table is an error that changes nothing |
| Schema.Database.InitDb | app/routers/items.py:39-114 | the result is the migrations applied to the created tables; every migrated column exists; old columns stay a prefix; an up-to-date database is unchanged |
| Pages.Lookup | main.py:25 | `dict.get`: present iff the key is in the map, with its value |
| Pages.AttachBlogSlugs | main.py:24-25 | every row gets the map's slug for its id, or none; nothing else changes |
| Pages.Decorate | main.py:22-25 | the same rows in the same order; a row has a slug iff some post is about it, and that slug is such a post's |
| Pages.ReadRoot | main.py:18-49 | the watched list and the watch-list as their queries give them, slugs attached; the counts are the list lengths |
| Pages.FilterItems | main.py:63-64 | filtering decorated rows by type keeps the same rows as filtering the plain rows |
| Pages.TopListPage | main.py:56-65 | movies and series are the top list filtered by type, in rank order; a row has a slug iff some post is about it, and that slug is such a post's |
| Pages.TopSplit | main.py:63-64 | a row is a top movie (series) iff it is ranked and its type is "Movie" ("TV Series"); no row is on both lists; both lists stay in rank order |
| Pages.FilterKeepsOrder | main.py:63-64 | a filter of a rank-ordered list is rank-ordered |
| Pages.BlogIndex | main.py:51-54 | exactly the posts whose watched row exists |
| Pages.BlogPostPage | main.py:95-100 | 404 with no post iff no post with the slug joins a watched row; otherwise 200 with that post |

## Left out

- `startup_check.py` is not part of this model. It is a console script that checks the environment, files and network.
- Routing, dependency injection, templates, static files, `.env` loading and logging are left out. Each handler is modelled by what it decides and returns.
- The network call in `tmdb_request` is left out: `urlopen`, its 10-second timeout, JSON decoding and percent-encoding of the query. Its answer or exception text is a parameter.
- `save_and_resize_image` is left out, because it is image file I/O with a floating-point ratio. The `uuid4` name is an opaque token parameter.
- Auth.CompareDigest: models only equality and the `TypeError` on non-ASCII text, not the constant running time.
- The two averages on the home page, and `tmdb_rating` beyond being carried as a `real`, are left out because they are floating point.
- Text.ParseInt: accepts only ASCII digits, not the other Unicode decimal digits that Python's `int` also accepts. It applies the default limit of 4300 digits; a limit changed with `sys.set_int_max_str_digits` or `PYTHONINTMAXSTRDIGITS` is not modelled.
- Dates: `Date` admits days 29 to 31 in every month. The framework rejects an impossible date in a form or body with 422 before a handler runs, so the model never builds one from a request, but its calendar check is not modelled.
- Slug.LowerChar: lower-cases ASCII capitals and the two non-ASCII characters whose lower case holds an ASCII letter (KELVIN SIGN and the dotted capital I, whose combining dot the next stage drops). Other case mappings are left out because they cannot survive the slug filter.
- Store.JoinedPosts: does not model the `ORDER BY created_at DESC` of the blog list. It states which posts appear, not their order.
- Pages.BlogIndex: states which posts the blog page lists, not their `created_at` order. The watched-row columns the query joins onto each post (poster, score, genres and the like) are display data and are left out.
- Store.Store.BlogSlugMap: states that each key's slug belongs to one of that title's posts, but not which one wins when a title has several. The query has no `ORDER BY`.
- Queries.TopList, Queries.WatchedList, Queries.WantToWatchList: promise no order among rows with equal sort keys, because the database promises none.
- SQLite integer widths and the engine itself are left out. Ids are unbounded integers and tables are sequences in row-id order.
- `ON DELETE CASCADE` is declared but never takes effect, because foreign keys are never switched on. So no cascade is modelled, and Store.OrphanedPost states the consequence.
- Store.Store.UpdateWatched, Store.Store.UpdateWantToWatch: require a body that meets the record ranges, because the framework rejects any other body with 422 before the handler runs.
- The UTC clock (`datetime.utcnow().isoformat()`) is a parameter `now` of the blog create.
- Schema.Database.InitDb: states that every migrated column exists and that old layouts are kept. It does not state the full column list of a freshly created database.
- Auth.GetCurrentUsername: requires ASCII credentials, as HTTP Basic decoding delivers them. A non-ASCII configured value gives a 500 (the `TypeError` of the comparison).
