# gokv SQL client: a Dafny model of its cache-aside coherence engine

The `sqlc` client of gokv is a key/value store in front of a relational database.
It keeps an in-memory cache `map[string]CacheValue` and reaches the database through
four configurable query templates (`KeysSQL`, `GetSQL`, `SetSQL`, `DeleteSQL`).

- `Get` answers from the cache when it can.
- Otherwise `Get` reads the database. One row is cached and returned. Two or more rows are refused with `ErrTooManyValues`. No row is reported as not found, or, when a generator hook is given, the generated value is persisted through `Set` and returned.
- `Set` runs the write and then overwrites the cache entry.
- `Del` runs the soft delete and then evicts the entry.
- `Keys` lists column 0 of each row of `KeysSQL`.
- `Refresh` evicts cached keys that are no longer live, then evicts and re-reads the rest one by one.

The model has four modules:

- `Errors` (errors.dfy): the error values (`ErrEmptyKey`, `ErrTooManyValues` for a key, a NULL scanned into a string, and driver, codec and generator failures), a nil-or-error type and a `Result`.
- `Util` (util.dfy): the argument checks of pkg/util/util.go.
- `Gokv` (gokv.dfy): the metadata `Option`, the `OptionFn` closures `Expired` and `Apply`, and `OptionFns.Apply` as a loop over a `*Option` (class `OptionBox`). The loop is specified by `Applied`, the in-order fold of the functions. This module also holds the generator hook type.
- `Sqlc` (sqlc.dfy): the database as a class `Backend`, and the class `Client` with its `cache` field and the methods `NewClient`, `Keys`, `Set`, `Get`, `Del` and `Refresh`.

The database is abstract. `Backend` holds two fixed answer functions: one gives the reply to a query, the other the outcome of an exec. Each answer depends on the statement and on every write the database has received before it. A query does not change later answers. `Backend` logs every query and every exec it is sent. A statement is a template together with its variables. Rendering it, opening the connection, running it and scanning it are one step, and that step either yields rows (or success, for an exec) or fails with an error. So "no database access" is stated as `unchanged(backend)`, and "what was written" is stated over the `writes` log. The codec is a pair of function values. `Unmarshal` decodes into an existing `Option` and returns what the decoder left there together with the error, as Go's `Unmarshal(data, &option)` does. Time is an `int` parameter `now` of each operation.

Points where the code's behaviour is easy to misread:

- `Del` evicts only after its exec succeeds, and it then reports `found = true` whether or not any row matched (pkg/sqlc/sqlc.go:358-366). The store interface promises that deleting a missing key is not an error (store.go:44-47), and the code does not report whether a row existed.
- When a re-read inside `Refresh` fails, the loop returns at once (pkg/sqlc/sqlc.go:103-111). The failing key stays evicted, and the keys not yet visited keep their old cached values.
- `Option` has only the expiry field (store.go:10-12). No creation time is stamped.
- `Set` overwrites the cache entry whenever the exec succeeds, even if the UPDATE matched no row (pkg/sqlc/sqlc.go:207-217).
- `Get` returns the value itself as `found, v, option, err` (store.go:36-39).

## Model

| member | source | states |
|---|---|---|
| `Util.CheckKey` | pkg/util/util.go:19-25 | an error is returned exactly for the empty key, and that error is ErrEmptyKey |
| `Util.CheckVal` | pkg/util/util.go:28-30 | every value is accepted (nil is returned) |
| `Util.CheckKeyAndValue` | pkg/util/util.go:8-14 | the result equals CheckKey(k) whatever the value |
| `Gokv.Expired` | store.go:23 | run at instant `now`, the mutator sets the expiry to now + d and leaves the rest of the Option as it was |
| `Gokv.Apply` | store.go:24 | the mutator replaces the whole Option with v, whatever it held |
| `Gokv.ApplyFns` | store.go:15-21 | returns the same pointer it was given, which now holds the in-order fold of the functions over the old Option |
| `Gokv.AppliedAppend` | store.go:15-21 | running a list and then another is the same as running their concatenation |
| `Gokv.NoFnsKeepOption` | store.go:15-21 | an empty list leaves the Option unchanged, so Set with no mutators stores Option{} |
| `Gokv.ApplyDiscardsEarlier` | store.go:15-24 | in any list, Apply(v) discards what ran before it: the result is the rest of the list run on v |
| `Gokv.ApplyAlone` | store.go:24 | {Apply(v)} turns any Option, Option{} included, into v |
| `Gokv.LastWriterWins` | store.go:15-24 | [Apply(a), Apply(b)] yields b |
| `Sqlc.Backend.Query` | pkg/sqlc/sqlc.go:264-267 | the reply is the database's answer to the statement given the writes so far; the query is logged and no write is added |
| `Sqlc.Backend.Exec` | pkg/sqlc/sqlc.go:207-209 | the outcome is the database's answer given the writes so far; the statement is appended to the writes |
| `Sqlc.TooManyRowsRejected` | pkg/sqlc/sqlc.go:272-275 | two or more rows never yield a value; once the first row decodes, the error is TooManyValues for the key |
| `Sqlc.OneRowFound` | pkg/sqlc/sqlc.go:283-309 | a value is found exactly when there is one row and it decodes; the value is column 0 with NULL read as ""; the option is zero unless column 1 exists and is non-empty; no row is reported as no row |
| `Sqlc.ScanKey` | pkg/sqlc/sqlc.go:148-158 | a key row scans exactly when it has no NULL column, and the key is column 0 |
| `Sqlc.KeyColumnIsFirstColumn` | pkg/sqlc/sqlc.go:145-161 | the key list exists exactly when every row scans; it then has one entry per row, column 0 of that row, in row order |
| `Sqlc.Client.NewClient` | pkg/sqlc/sqlc.go:42-57 | the cache starts empty (so its keys are non-empty), and the JSON codec is used when none is configured |
| `Sqlc.Client.Keys` | pkg/sqlc/sqlc.go:117-162 | returns the KeysSQL answer's key column, or its error with no keys; it sends one query and does not touch the cache |
| `Sqlc.Client.Set` | pkg/sqlc/sqlc.go:167-220 | an empty key or a marshal failure returns the error before any statement, with cache and database unchanged; otherwise SetSQL is sent with the key, the value, the marshalled applied option and the time; on success cache[k] becomes {v, applied option, now}, and on an exec error the cache is unchanged; no other key changes |
| `Sqlc.Client.Get` | pkg/sqlc/sqlc.go:228-322 | an empty key fails with ErrEmptyKey without storage access; a hit returns the cached value and option with no query and no change; a miss sends one GetSQL query; one row is cached and returned; two rows, a scan error or a decode error fail with no cache entry and no write; no row without a generator returns (false, "", zero, nil); a generator error or a Set failure returns found = false; otherwise the generated value is written through Set with Apply(option) and cached as {v, option}; only key k can change |
| `Sqlc.Client.Del` | pkg/sqlc/sqlc.go:327-367 | an empty key fails with ErrEmptyKey without storage access; otherwise DeleteSQL is sent; on success k is evicted and found is true whether or not it was cached; on an exec error (false, err) with the cache unchanged |
| `Sqlc.Client.Refresh` | pkg/sqlc/sqlc.go:80-114 | a Keys failure returns its error with the cache untouched and only the KeysSQL query sent; afterwards every cached key was cached before and is live; after a full cycle the cache is exactly the live, previously cached keys whose re-read found one row, holding what was read, and the queries sent are KeysSQL followed by one GetSQL per such key in some order listing each once; on a failing re-read there is such an order and a position in it where the pass stopped: the error is that key's read error and the key is evicted, the keys before it were re-read without error, the keys after it keep their old entries, and the queries sent are KeysSQL and the GetSQL reads up to that key; nothing is written |
| `Sqlc.Client.EvictNotLive` | pkg/sqlc/sqlc.go:86-101 | the cache is restricted to the live keys, and every remaining key is listed exactly once |
| `Sqlc.Client.Reload` | pkg/sqlc/sqlc.go:103-111 | each listed key is evicted and re-read in turn, one GetSQL query each in list order; after a full pass each listed key is cached exactly when its re-read found one row; when a read fails the pass stops there: that key's error is returned and the key is evicted, the keys before it were re-read, the keys after it keep their old entries, and only the reads up to it were sent; unlisted keys are untouched |
| `Sqlc.Client.ReloadKey` | pkg/sqlc/sqlc.go:104-110 | the key is evicted and re-read: it fails exactly when its read fails, and is then left evicted; otherwise it is cached exactly when one row was found, with what was read; one GetSQL query is sent (none for the empty key) and no other key changes |
| `Sqlc.SetThenGet` | pkg/sqlc/sqlc_test.go:55-62 | after a successful Set(k, v), Get(k, nil) returns (true, v, Option{}, nil) from the cache with no query |
| `Sqlc.DelTwice` | pkg/sqlc/sqlc.go:358-366 | when both execs succeed, both Del calls report found, and the cache is the original minus k, as after one Del |
| `Sqlc.DelThenGet` | pkg/sqlc/sqlc.go:233-264 | after a successful Del, Get(k, nil) misses the cache and queries the database; it finds the key exactly when that read finds one row |
| `Sqlc.GenerateThenGet` | pkg/sqlc/sqlc.go:312-321 | a key missing from the cache and the database is generated and persisted: the first Get returns (true, the generated value, its option, nil), a later Get without a generator returns the same, and only the first Get's GetSQL query is sent |

## Left out

- `db.Close` errors are not modelled. The source merges them into the result with `multierr.Append`, after the cache has been updated, so a successful Get, Set or Del can still return a close error.
- The 15-second context timeout, `sql.Open` and the one-connection-per-call pattern are not modelled. They are driver plumbing: each statement is one step that succeeds or fails.
- `text/template` parsing and rendering are not modelled. A statement is the template text and its variables. Substitution is textual with no escaping, so query injection is possible; the model does not explore it.
- The time format `2006-01-02 15:04:05.000` of the `Time` variable is part of rendering and is not modelled.
- The JSON and gob codecs (pkg/codec/codec.go) are not part of this model. `NewClient` receives the JSON codec as a parameter.
- `tickerRefresh`, its goroutine and `cacheLock` are not modelled. The operations are atomic sequential methods, so concurrent interleavings of Refresh with Get, Set or Del are not captured.
- `log.Printf` debug output is not modelled.
- Time is one `now` per operation. The several `time.Now()` readings inside one Set, Get or Refresh are taken as the same instant. An `Expired` deadline is computed with unbounded integers, so `time.Time.Add` overflow is not modelled.
- Gokv.ApplyFns: a caller's OptionFn is modelled as a pure function of the instant and the Option, so closures with other side effects are not captured.
- The generator hook is modelled as a pure function of the key.
- Writes by other clients of the same database are not modelled: the database's answers depend only on the writes this client has sent.
- A nil `OptionFn` in the list given to `Set` is not modelled. The source calls it and panics (store.go:15-17); in the model every list element is a function.
- A query yielding zero columns is not modelled: it would make the source index `columns[0]` out of range, and a SELECT always has a column. Errors from `rows.Columns()` and `rows.Err()` are ignored by the source and are not modelled. When rows stop is a property of the reply.
- A `Client` built as a struct literal rather than by `NewClient` is not modelled. Such a client has a nil map, and its first Set or successful Get would panic.
- The generic-value variant of the store interface (a decoded target, `NilValueError`) is not part of this code and not part of this model.
