# LightBnB property search and property store, modelled in Dafny

LightBnB is a small vacation-rental web application. Its data-access layer
(`db/database.js`) holds the two operations modelled here:

- `getAllProperties(options, limit = 10)` builds one parameterised PostgreSQL
  query and its positional parameter list from a search's options: a city
  (matched with `LIKE '%city%'`), an owner id, a price range (both bounds
  needed, multiplied by 100 into cents), and a minimum average rating. The
  limit is always bound last. It appends each fragment to the query string
  and pushes each value onto the parameter list. The number of values pushed
  so far gives the `$n` placeholder, and it also decides between `WHERE` and
  `AND`.
- `addProperty(property)` adds a property to the in-memory table of
  properties. The key is the number of keys plus one, the same number is
  written into `property.id`, and the same object is returned.

The project has five files:

- `sql_placeholders.dfy` (`SqlPlaceholders`) covers how a template literal
  writes `$n` into the text, a scanner that reads the placeholder numbers back
  out of a query in text order, and the round trip between the two.
- `property_search.dfy` (`PropertySearch`) covers the following:
  - the search options, the bound values and the query as a list of clauses,
    rendered into text;
  - the builder itself, as one method per `if` block of `getAllProperties`,
    each appending to the query string and the parameter list;
  - `GetAllProperties`, which chains those blocks.

  Every block is proved against the clause list and the parameter list of the
  reference definition, and it keeps the placeholders of the text so far
  numbered `$1 … $n` with `n` the number of values.
- `search_properties.dfy` (`SearchProperties`) proves what the query promises:
  - which value each placeholder selects;
  - how values are transformed;
  - the single `WHERE`;
  - the fixed clause order;
  - that a lone price bound is ignored;
  - the output of an empty search.
- `fragment_joints.dfy` (`FragmentJoints`) proves what the text holds where
  two fragments meet. The fragments are concatenated with nothing in between,
  as the source writes them.
- `property_store.dfy` (`PropertyStore`) holds `addProperty` as a method of a
  class that owns the map of properties and writes the id field of the
  property object in place.

JavaScript truthiness decides which filters apply. A missing, empty or zero
option is written here as `""`, `0` or `0.0`, and the builder treats all of
them alike.

## Model

| member | source | states |
|---|---|---|
| SqlPlaceholders.Decimal | LightBnB_WebApp-master/db/database.js:143 | the text `${n}` writes for a non-negative number is a non-empty run of decimal digits with no leading zero unless n is 0 |
| SqlPlaceholders.ValueOfDecimal | LightBnB_WebApp-master/db/database.js:143 | reading back the digits written for n gives n |
| SqlPlaceholders.ScanRef | LightBnB_WebApp-master/db/database.js:143 | the placeholder text `$n` scans to exactly the one placeholder n |
| SqlPlaceholders.ScanAppend | LightBnB_WebApp-master/db/database.js:143-183 | appending text that does not start with a digit neither merges nor splits placeholders, so the placeholders of the whole query are those of its pieces in order |
| PropertySearch.ScanPrefix | LightBnB_WebApp-master/db/database.js:132-136 | the fixed SELECT/FROM/JOIN start of the query holds no placeholder |
| PropertySearch.ScanClause | LightBnB_WebApp-master/db/database.js:143-183 | each fragment's text holds exactly the placeholders of its clause, in order; two for the price range, none for GROUP BY; its first character cannot extend a placeholder |
| PropertySearch.SearchParams | LightBnB_WebApp-master/db/database.js:141-180 | the number of values is 1 + [city] + [owner] + 2·[both prices] + [rating], and the last value is the limit |
| PropertySearch.LikePatternWraps | LightBnB_WebApp-master/db/database.js:141 | the bound city is the city with one `%` added on each side |
| PropertySearch.OwnerStep | LightBnB_WebApp-master/db/database.js:147-152 | the builder's test `length === 1` after pushing the owner picks WHERE exactly when no city filter came before |
| PropertySearch.PriceStep | LightBnB_WebApp-master/db/database.js:156-168 | the test `length === 2` after pushing both prices picks WHERE exactly when no city or owner filter came before, and the clause refers to the two values just pushed |
| PropertySearch.RatingStep | LightBnB_WebApp-master/db/database.js:174-176 | the HAVING clause refers to the value just pushed |
| PropertySearch.FilterByCity | LightBnB_WebApp-master/db/database.js:129-144 | starting from the fixed query start and no values, it pushes `%city%` and appends the WHERE city clause at `$1` exactly when a city is given; the text's placeholders are `$1 … $n` |
| PropertySearch.FilterByOwner | LightBnB_WebApp-master/db/database.js:146-153 | appends the owner filter and its value exactly when an owner is given, keeping text and values in step with the reference clause and value lists |
| PropertySearch.FilterByPrice | LightBnB_WebApp-master/db/database.js:155-169 | appends the price range and both prices ×100 exactly when both bounds are given, keeping text and values in step with the reference lists |
| PropertySearch.GroupByProperty | LightBnB_WebApp-master/db/database.js:172 | appends GROUP BY without adding a value or a placeholder |
| PropertySearch.FilterByRating | LightBnB_WebApp-master/db/database.js:174-177 | appends HAVING and the rating exactly when a minimum rating is given |
| PropertySearch.OrderAndLimit | LightBnB_WebApp-master/db/database.js:180-183 | pushes the limit last and appends ORDER BY and LIMIT at the placeholder of that last value; the result is the whole reference query |
| PropertySearch.BuildQuery | LightBnB_WebApp-master/db/database.js:127-183 | for any separator between fragments, the blocks in order build the text rendered from the reference clause list and the reference value list, with placeholders `$1 … $n`, one per value, in text order |
| PropertySearch.GetAllProperties | LightBnB_WebApp-master/db/database.js:127-183 | the query text is the reference clause list rendered with nothing between fragments; the values are the reference list; scanning the text gives `$1, $2, …, $n` for n values |
| PropertySearch.GetAllPropertiesSpaced | LightBnB_WebApp-master/db/database.js:127-183 | the same builder with one space before each fragment, which keeps the same values and the same placeholder numbering |
| SearchProperties.BoundValues | LightBnB_WebApp-master/db/database.js:141-180 | the city is bound first as `%city%`, then the owner, then minimum and maximum price each ×100 in that order, the rating second to last, the limit last |
| SearchProperties.PlaceholderBindsItsValue | LightBnB_WebApp-master/db/database.js:143-183 | every placeholder `$k` of every emitted clause lies in 1..n and selects the value that clause is about |
| SearchProperties.FilterKeywords | LightBnB_WebApp-master/db/database.js:139-169 | the filters before GROUP BY number [city] + [owner] + [both prices], and only the first of them is introduced by WHERE |
| SearchProperties.OneWhere | LightBnB_WebApp-master/db/database.js:143-168 | the query starts with a filter exactly when a city, an owner or the full price range is given; of the filters, the first uses WHERE and every later one AND |
| SearchProperties.AscendingAppend | LightBnB_WebApp-master/db/database.js:139-183 | appending clauses all ranked above the ones before keeps the clause order strictly increasing |
| SearchProperties.ClauseOrder | LightBnB_WebApp-master/db/database.js:139-183 | the fragments come strictly in the order city, owner, price, GROUP BY, HAVING, ORDER BY/LIMIT |
| SearchProperties.ClausePresence | LightBnB_WebApp-master/db/database.js:139-183 | GROUP BY is always present; each filter is present exactly when its option is given; the last clause is LIMIT at the last placeholder |
| SearchProperties.LonePriceBoundIgnored | LightBnB_WebApp-master/db/database.js:155 | with only one price bound given, the clauses and values are those of a search with neither |
| SearchProperties.EmptySearch | LightBnB_WebApp-master/db/database.js:129-136 | with no option the query is the fixed start, GROUP BY, then ORDER BY and `LIMIT $1`, and the only value is the limit |
| SearchProperties.CityExample | LightBnB_WebApp-master/db/database.js:139-144 | city "van" with limit 5 binds `%van%` and 5 and emits one WHERE filter and no AND |
| SearchProperties.OwnerAndPriceExample | LightBnB_WebApp-master/db/database.js:146-169 | owner 7 with prices 50 to 150 binds 7, 5000, 15000 and 10; the owner filter uses WHERE and the price range AND |
| SearchProperties.RatingExample | LightBnB_WebApp-master/db/database.js:174-177 | a rating alone binds the rating then the limit, and HAVING refers to `$1` |
| FragmentJoints.JoinAdjacent | LightBnB_WebApp-master/db/database.js:143-183 | appended fragments appear in the text with exactly the separator between neighbours |
| FragmentJoints.HavingFusesWithGroupBy | LightBnB_WebApp-master/db/database.js:172-176 | with a minimum rating, the text as written holds `properties.idHAVING avg(...) >= `, where the grouping column runs into the keyword |
| FragmentJoints.PlaceholderRunsIntoNextFragment | LightBnB_WebApp-master/db/database.js:143-151 | with a city and an owner, the text as written holds `$1AND owner_id = ` |
| FragmentJoints.SpacedHavingStandsApart | LightBnB_WebApp-master/db/database.js:172-176 | with a space before each fragment, the text holds `properties.id HAVING avg(...) >= ` |
| FragmentJoints.SpacedFragmentsStandApart | LightBnB_WebApp-master/db/database.js:139-183 | with a space before each fragment, every two neighbouring fragments are separated by that space |
| PropertyStore.NextKeyIsFresh | LightBnB_WebApp-master/db/database.js:197-199 | when the keys are exactly 1..count, key count+1 is unused; storing under it grows the table by one and keeps the keys 1..count+1 |
| PropertyStore.TakenKeyIsReplaced | LightBnB_WebApp-master/db/database.js:197-199 | when key count+1 is already taken, storing under it replaces that entry and the table does not grow |
| PropertyStore.PropertyTable.constructor | LightBnB_WebApp-master/db/database.js:3 | the table starts from any given map of properties |
| PropertyStore.PropertyTable.AddProperty | LightBnB_WebApp-master/db/database.js:196-201 | sets `property.id` to the old entry count + 1 and stores that same object under that key, replacing only that key; returns the same object; other entries are unchanged; the keys stay exactly 1..count; if every stored id equals its key, that still holds afterwards, provided the object was not already stored |

## Left out

- The `pg` connection pool, `config`, and `pool.query(...).then(...)` are not modelled: they are database I/O. Running the query, the SQL meaning of joins, `avg` and ordering, and the returned rows are all left out. The model ends with the query text and the parameter list that would be sent.
- The `console.log` calls are logging only.
- The other data-access functions are not part of this model: `getUserWithEmail`, `getUserWithId`, `addUser` and `getAllReservations` are each one fixed statement handed to the database.
- Loading `json/properties.json` is not modelled. `PropertyTable` starts from any map.
- `addProperty` returns `Promise.resolve(property)`. The model returns the property itself.
- Prices are integers and the multiplication by 100 is exact. JavaScript number arithmetic on non-integer prices, and float rounding, are not modelled.
- The rating is kept as an opaque value (`real`). The bound is compared with `avg(...)` inside the database only.
- A property object is modelled with only its `id` field. The other fields are never read or written by the store.
- `PropertyStore.PropertyTable.AddProperty`: the keys of the JavaScript object are strings, and `Object.keys(...).length` counts them. The model uses integer keys, which is the same as long as every key is a canonical decimal number.
- `PropertyStore.PropertyTable.AddProperty`: the id-matches-key invariant is preserved only when the added object is not already stored under another key. The source does not check this, and an already stored object would have its id overwritten at both places.

## Findings

| source | as written | input that shows it | evidently intended | confidence | as-written member | corrected member |
|---|---|---|---|---|---|---|
| LightBnB_WebApp-master/db/database.js:172-176 | `GROUP BY properties.id` is followed directly by `HAVING ...`, so the text holds `properties.idHAVING` | any `minimum_rating`, e.g. `{minimum_rating: 4}` | a space or newline between fragments: `GROUP BY properties.id HAVING avg(...) >= $n` | high, not executed | FragmentJoints.HavingFusesWithGroupBy | FragmentJoints.SpacedHavingStandsApart |
| LightBnB_WebApp-master/db/database.js:143-151 | a placeholder is followed directly by the next fragment, e.g. `$1AND owner_id = $2` or `$1GROUP BY`; PostgreSQL 15 and later reject a parameter with trailing junk | `{city: "van", owner_id: 7}` | each fragment separated from the previous one, as `GetAllPropertiesSpaced` builds it | medium (depends on the PostgreSQL version), not executed | FragmentJoints.PlaceholderRunsIntoNextFragment | FragmentJoints.SpacedFragmentsStandApart |

`GetAllProperties` keeps the text exactly as the source writes it. `PropertySearch.GetAllPropertiesSpaced` is the corrected builder. It binds the same values and keeps the same placeholder numbering, and the lemmas in `SearchProperties` hold for both, since they are stated on the clause and value lists that both render.
