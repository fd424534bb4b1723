/** The SQL-backed key/value client (pkg/sqlc/sqlc.go): an in-memory cache kept
    coherent with a relational store read and written through query templates. */
module Sqlc {
  import opened Errors
  import opened Util
  import opened Gokv

  // ---------------------------------------------------------------------------
  // What the backing store sends back

  /** sql.NullString: a column that may be NULL. */
  datatype NullString = Null | Valid(s: string) {
    /** The `.String` field: "" for NULL. */
    function String(): string { if Valid? then s else "" }
  }

  /** One result row: its first column and the columns after it, or the error
      rows.Scan reports for it. A SELECT always has at least one column. */
  datatype Row = Row(first: NullString, rest: seq<NullString>) | Unscannable(error: Error)

  /** What a query yields: its rows in order, or the error that prevented it. */
  datatype QueryReply = Rows(rows: seq<Row>) | QueryFailed(error: Error)

  /** The variables a template is rendered with. */
  datatype Vars =
    | NoVars                                                     // KeysSQL
    | KeyVars(key: string)                                       // GetSQL: {Key}
    | SetVars(key: string, value: string, option: string, time: Time) // SetSQL: {Key, Value, Option, Time}
    | DeleteVars(key: string, time: Time)                        // DeleteSQL: {Key, Time}

  /** A statement sent to the store: a template and the variables it is rendered
      with. Rendering is textual substitution by text/template with no escaping,
      so the text depends on the pair alone; it is not modelled further. */
  datatype Statement = Statement(template: string, vars: Vars)

  /** The external relational store reached through DriverName/DataSourceName.
      Rendering, connecting, running and failing are one step per statement. What a
      statement yields depends on the writes the store has received before it; a
      read does not change what the store answers. */
  class Backend {
    const query: (seq<Statement>, Statement) -> QueryReply
    const exec: (seq<Statement>, Statement) -> MaybeError
    var queries: seq<Statement>   // queries sent, oldest first
    var writes: seq<Statement>  // execs sent, oldest first

    constructor (query: (seq<Statement>, Statement) -> QueryReply, exec: (seq<Statement>, Statement) -> MaybeError)
      ensures this.query == query && this.exec == exec
      ensures queries == [] && writes == []
    {
      this.query := query;
      this.exec := exec;
      queries := [];
      writes := [];
    }

    /** db.QueryContext: runs a read statement. */
    method Query(s: Statement) returns (r: QueryReply)
      modifies this
      ensures r == query(old(writes), s)
      ensures queries == old(queries) + [s] && writes == old(writes)
    {
      r := query(writes, s);
      queries := queries + [s];
    }

    /** db.ExecContext: runs a write statement; its affected-row count is not used. */
    method Exec(s: Statement) returns (e: MaybeError)
      modifies this
      ensures e == exec(old(writes), s)
      ensures writes == old(writes) + [s] && queries == old(queries)
    {
      e := exec(writes, s);
      writes := writes + [s];
    }
  }

  // ---------------------------------------------------------------------------
  // Configuration and cache entries

  /** The outcome of codec.Unmarshal into an existing Option: the Option as the
      decoder left it, and the error it reported. */
  datatype Decoded = Decoded(option: Option, err: MaybeError)

  /** codec.Codec, restricted to the Option metadata it encodes here. */
  datatype Codec = Codec(marshal: Option -> Result<string>, unmarshal: (string, Option) -> Decoded)

  /** The Codec field of Config: a nil interface or a codec. */
  datatype CodecSetting = NilCodec | UseCodec(codec: Codec)

  datatype Config = Config(
    driverName: string,
    dataSourceName: string,
    keysSql: string,
    getSql: string,
    setSql: string,
    deleteSql: string,
    codec: CodecSetting,
    refreshInterval: Duration)

  /** CacheValue: the value and option last known for a key and when they were cached. */
  datatype CacheValue = CacheValue(value: string, option: Option, updateTime: Time)

  // ---------------------------------------------------------------------------
  // Reading rows back

  /** What a read-through of one key found. */
  datatype ReadOutcome =
    | NoRow
    | OneRow(value: string, option: Option)
    | ReadError(option: Option, error: Error)

  /** How Get decodes the first row: column 0 is the value (NULL reads as ""); a
      second column, when there is one and it is not empty, is decoded into the
      zero Option. */
  function DecodeRow(row: Row, unmarshal: (string, Option) -> Decoded): ReadOutcome
  {
    match row
    case Unscannable(e) => ReadError(ZeroOption, e)
    case Row(first, rest) =>
      if rest != [] && rest[0].String() != "" then
        var d := unmarshal(rest[0].String(), ZeroOption);
        if d.err.Err? then ReadError(d.option, d.err.error) else OneRow(first.String(), d.option)
      else OneRow(first.String(), ZeroOption)
  }

  /** The result of Get's row loop: no row, one decoded row, or an error; a second
      row is refused with TooManyValues once the first one has decoded. */
  function ReadRows(k: string, rows: seq<Row>, unmarshal: (string, Option) -> Decoded): ReadOutcome
  {
    if rows == [] then NoRow
    else
      var d := DecodeRow(rows[0], unmarshal);
      if d.OneRow? && |rows| > 1 then ReadError(d.option, TooManyValues(k)) else d
  }

  /** Two or more rows never yield a value, and once the first row decodes the
      error is TooManyValues for the key. */
  lemma TooManyRowsRejected(k: string, rows: seq<Row>, unmarshal: (string, Option) -> Decoded)
    requires |rows| >= 2
    ensures ReadRows(k, rows, unmarshal).ReadError?
    ensures DecodeRow(rows[0], unmarshal).OneRow? ==> ReadRows(k, rows, unmarshal).error == TooManyValues(k)
  {
  }

  /** A value is found exactly when there is one row and it decodes; it is column 0
      with NULL read as "", and the option stays zero unless column 1 exists and is
      not empty. */
  lemma OneRowFound(k: string, rows: seq<Row>, unmarshal: (string, Option) -> Decoded)
    ensures ReadRows(k, rows, unmarshal).OneRow? <==>
              |rows| == 1 && DecodeRow(rows[0], unmarshal).OneRow?
    ensures ReadRows(k, rows, unmarshal).OneRow? ==>
              rows[0].Row? && ReadRows(k, rows, unmarshal).value == rows[0].first.String()
    ensures ReadRows(k, rows, unmarshal).OneRow? && (rows[0].rest == [] || rows[0].rest[0].String() == "") ==>
              ReadRows(k, rows, unmarshal).option == ZeroOption
    ensures ReadRows(k, rows, unmarshal).NoRow? <==> rows == []
  {
  }

  /** Keys scans every column of a row into a plain string: a NULL anywhere fails. */
  function ScanKey(row: Row): (r: Result<string>)
    ensures r.Success? <==> row.Row? && row.first.Valid? && forall i :: 0 <= i < |row.rest| ==> row.rest[i].Valid?
    ensures r.Success? ==> r.value == row.first.s
  {
    match row
    case Unscannable(e) => Failure(e)
    case Row(first, rest) =>
      if first.Null? || exists i :: 0 <= i < |rest| && rest[i].Null? then Failure(NullColumn)
      else Success(first.s)
  }

  /** The first column of every row in row order, or the error of the first row
      that does not scan. */
  function KeyColumn(rows: seq<Row>): Result<seq<string>>
    decreases |rows|
  {
    if rows == [] then Success([])
    else
      var head := ScanKey(rows[0]);
      if head.Failure? then Failure(head.error)
      else
        var tail := KeyColumn(rows[1..]);
        if tail.Failure? then tail else Success([head.value] + tail.value)
  }

  /** The key list has one entry per row, column 0 of that row, in row order, and
      it is produced exactly when every row scans. */
  lemma {:induction false} KeyColumnIsFirstColumn(rows: seq<Row>)
    ensures KeyColumn(rows).Success? <==> forall i :: 0 <= i < |rows| ==> ScanKey(rows[i]).Success?
    ensures KeyColumn(rows).Success? ==>
              |KeyColumn(rows).value| == |rows| &&
              forall i :: 0 <= i < |rows| ==> KeyColumn(rows).value[i] == rows[i].first.s
    decreases |rows|
  {
    if rows != [] {
      KeyColumnIsFirstColumn(rows[1..]);
      assert forall i :: 1 <= i < |rows| ==> rows[i] == rows[1..][i - 1];
    }
  }

  /** `prefix` followed by the keys of `r`, or the error of `r`. */
  function After(prefix: seq<string>, r: Result<seq<string>>): Result<seq<string>>
  {
    if r.Success? then Success(prefix + r.value) else r
  }

  /** `order` lists every key of `keys` exactly once. */
  ghost predicate Lists(order: seq<string>, keys: set<string>)
  {
    && (forall k :: k in order <==> k in keys)
    && (forall i, j :: 0 <= i < j < |order| ==> order[i] != order[j])
  }

  // ---------------------------------------------------------------------------
  // The client

  class Client {
    const config: Config
    const codec: Codec
    const backend: Backend
    var cache: map<string, CacheValue>

    /** NewClient: an empty cache, and the JSON codec when none is configured. The
        background refresh a positive RefreshInterval starts is not part of this model. */
    constructor NewClient(c: Config, json: Codec, backend: Backend)
      ensures config == c && this.backend == backend
      ensures codec == (if c.codec.NilCodec? then json else c.codec.codec)
      ensures cache == map[] && KeysNonEmpty()
    {
      config := c;
      codec := if c.codec.NilCodec? then json else c.codec.codec;
      this.backend := backend;
      cache := map[];
    }

    /** The data model's invariant that every cached key is non-empty: Set, Get and
        Del refuse the empty key before they touch the cache, and Refresh only
        removes or re-reads entries. No operation needs it as a precondition. */
    ghost predicate KeysNonEmpty()
      reads this
    {
      forall k :: k in cache ==> k != ""
    }

    function KeysStatement(): Statement { Statement(config.keysSql, NoVars) }
    function GetStatement(k: string): Statement { Statement(config.getSql, KeyVars(k)) }
    function DeleteStatement(k: string, now: Time): Statement { Statement(config.deleteSql, DeleteVars(k, now)) }

    /** What Keys returns when the store has received `writes`. */
    ghost function KeysAnswer(writes: seq<Statement>): Result<seq<string>>
    {
      match backend.query(writes, KeysStatement())
      case QueryFailed(e) => Failure(e)
      case Rows(rows) => KeyColumn(rows)
    }

    /** What Get(k, nil) reports on a cache miss when the store has received `writes`. */
    ghost function Lookup(k: string, writes: seq<Statement>): ReadOutcome
    {
      if k == "" then ReadError(ZeroOption, EmptyKey)
      else
        match backend.query(writes, GetStatement(k))
        case QueryFailed(e) => ReadError(ZeroOption, e)
        case Rows(rows) => ReadRows(k, rows, codec.unmarshal)
    }

    /** The write statement Set sends for (k, v, fns) at `now`, or the error that
        stops Set before it sends one. */
    ghost function SetPlan(k: string, v: string, fns: seq<OptionFn>, now: Time): Result<Statement>
    {
      if k == "" then Failure(EmptyKey)
      else
        var data := codec.marshal(Applied(fns, now, ZeroOption));
        if data.Failure? then Failure(data.error)
        else Success(Statement(config.setSql, SetVars(k, v, data.value, now)))
    }

    /** The cache after a successful Refresh cycle: every key that was cached and is
        still live and whose re-read found one row, holding what was read. */
    ghost function Refreshed(before: map<string, CacheValue>, live: set<string>, writes: seq<Statement>, now: Time): map<string, CacheValue>
    {
      map k | k in before && k in live && Lookup(k, writes).OneRow? ::
        CacheValue(Lookup(k, writes).value, Lookup(k, writes).option, now)
    }

    /** Keys: column 0 of every row KeysSQL returns, in row order. The cache is not touched. */
    method Keys() returns (keys: seq<string>, err: MaybeError)
      modifies backend
      ensures var answer := KeysAnswer(old(backend.writes));
        (answer.Success? ==> keys == answer.value && err == Nil) &&
        (answer.Failure? ==> keys == [] && err == Err(answer.error))
      ensures backend.queries == old(backend.queries) + [KeysStatement()]
      ensures backend.writes == old(backend.writes)
    {
      var reply := backend.Query(KeysStatement());
      if reply.QueryFailed? {
        return [], Err(reply.error);
      }
      var rows := reply.rows;
      var results: seq<string> := [];
      var row := 0;
      assert rows[row..] == rows;
      assert KeyColumn(rows).Success? ==> [] + KeyColumn(rows).value == KeyColumn(rows).value;
      while row < |rows|
        invariant 0 <= row <= |rows|
        invariant KeyColumn(rows) == After(results, KeyColumn(rows[row..]))
      {
        assert rows[row..][0] == rows[row] && rows[row..][1..] == rows[row + 1..];
        var column := ScanKey(rows[row]);
        if column.Failure? {
          return [], Err(column.error);
        }
        ghost var tail := KeyColumn(rows[row + 1..]);
        assert tail.Success? ==>
          (results + [column.value]) + tail.value == results + ([column.value] + tail.value);
        results := results + [column.value];
        row := row + 1;
      }
      assert rows[row..] == [];
      return results, Nil;
    }

    /** Set: sends SetSQL with the key, the value, the marshalled option built by
        running `fns` on Option{} and the time; when the store accepts it, the cache
        entry for `k` is overwritten, whether or not a row was updated. */
    method Set(k: string, v: string, fns: seq<OptionFn>, now: Time) returns (err: MaybeError)
      modifies this, backend
      ensures var plan := SetPlan(k, v, fns, now);
        plan.Failure? ==> err == Err(plan.error) && cache == old(cache) && unchanged(backend)
      ensures var plan := SetPlan(k, v, fns, now);
        plan.Success? ==>
          backend.writes == old(backend.writes) + [plan.value] && backend.queries == old(backend.queries) &&
          var e := backend.exec(old(backend.writes), plan.value);
          err == e &&
          cache == if e.Nil? then old(cache)[k := CacheValue(v, Applied(fns, now, ZeroOption), now)] else old(cache)
      ensures k == "" ==> err == Err(EmptyKey)
      ensures cache - {k} == old(cache) - {k}
      ensures old(KeysNonEmpty()) ==> KeysNonEmpty()
    {
      var check := CheckKeyAndValue(k, v);
      if check.Err? {
        return check;
      }
      var zero := new OptionBox(ZeroOption);
      var option := ApplyFns(fns, zero, now);
      var data := codec.marshal(option.value);
      if data.Failure? {
        return Err(data.error);
      }
      var e := backend.Exec(Statement(config.setSql, SetVars(k, v, data.value, now)));
      if e.Err? {
        return e;
      }
      cache := cache[k := CacheValue(v, option.value, now)];
      return Nil;
    }

    /** Get: a cached entry is returned without touching the store; otherwise
        GetSQL is read, one row is cached and returned, two rows are refused, and no
        row either reports not-found or, with a generator, persists the generated
        value through Set. Only the entry for `k` can change. */
    method Get(k: string, gen: Generator, now: Time) returns (found: bool, v: string, option: Option, err: MaybeError)
      modifies this, backend
      ensures k == "" ==>
        !found && v == "" && option == ZeroOption && err == Err(EmptyKey) &&
        cache == old(cache) && unchanged(backend)
      ensures k != "" && k in old(cache) ==>
        found && v == old(cache)[k].value && option == old(cache)[k].option && err == Nil &&
        cache == old(cache) && unchanged(backend)
      ensures k != "" && k !in old(cache) ==>
        backend.queries == old(backend.queries) + [GetStatement(k)]
      ensures k != "" && k !in old(cache) ==>
        var r := Lookup(k, old(backend.writes));
        (r.ReadError? ==>
          !found && v == "" && option == r.option && err == Err(r.error) &&
          cache == old(cache) && backend.writes == old(backend.writes)) &&
        (r.OneRow? ==>
          found && v == r.value && option == r.option && err == Nil &&
          cache == old(cache)[k := CacheValue(r.value, r.option, now)] &&
          backend.writes == old(backend.writes)) &&
        (r.NoRow? && gen.NoGenerator? ==>
          !found && v == "" && option == ZeroOption && err == Nil &&
          cache == old(cache) && backend.writes == old(backend.writes))
      ensures k != "" && k !in old(cache) && Lookup(k, old(backend.writes)).NoRow? && gen.Generator? ==>
        var g := gen.fn(k);
        (g.Failure? ==>
          !found && v == "" && option == ZeroOption && err == Err(g.error) &&
          cache == old(cache) && backend.writes == old(backend.writes)) &&
        (g.Success? ==>
          var plan := SetPlan(k, g.value.value, [Apply(g.value.option)], now);
          (plan.Failure? ==>
            !found && v == "" && option == ZeroOption && err == Err(plan.error) &&
            cache == old(cache) && backend.writes == old(backend.writes)) &&
          (plan.Success? ==>
            backend.writes == old(backend.writes) + [plan.value] &&
            var e := backend.exec(old(backend.writes), plan.value);
            (e.Err? ==>
              !found && v == "" && option == ZeroOption && err == e && cache == old(cache)) &&
            (e.Nil? ==>
              found && v == g.value.value && option == g.value.option && err == Nil &&
              cache == old(cache)[k := CacheValue(g.value.value, g.value.option, now)])))
      ensures cache - {k} == old(cache) - {k}
      ensures old(KeysNonEmpty()) ==> KeysNonEmpty()
    {
      v, option := "", ZeroOption;
      var check := CheckKeyAndValue(k, v);
      if check.Err? {
        return false, "", option, check;
      }
      if k in cache {
        var hit := cache[k];
        return true, hit.value, hit.option, Nil;
      }
      var reply := backend.Query(GetStatement(k));
      if reply.QueryFailed? {
        return false, "", option, Err(reply.error);
      }
      var rows := reply.rows;
      var row := 0;
      while row < |rows|
        invariant 0 <= row <= 1 && row <= |rows|
        invariant row == 0 ==> v == "" && option == ZeroOption
        invariant row == 1 ==> DecodeRow(rows[0], codec.unmarshal) == OneRow(v, option)
        invariant cache == old(cache) && backend.queries == old(backend.queries) + [GetStatement(k)]
        invariant backend.writes == old(backend.writes)
      {
        if row >= 1 {
          return false, "", option, Err(TooManyValues(k));
        }
        var columns := rows[row];
        if columns.Unscannable? {
          return false, "", option, Err(columns.error);
        }
        if columns.first.String() != "" {
          v := columns.first.String();
        }
        if columns.rest != [] && columns.rest[0].String() != "" {
          var d := codec.unmarshal(columns.rest[0].String(), option);
          option := d.option;
          if d.err.Err? {
            return false, "", option, d.err;
          }
        }
        row := row + 1;
      }
      if row == 0 && gen.NoGenerator? {
        return false, v, option, Nil;
      } else if row == 1 {
        cache := cache[k := CacheValue(v, option, now)];
        return true, v, option, Nil;
      }
      var g := gen.fn(k);
      if g.Failure? {
        return false, "", option, Err(g.error);
      }
      ApplyAlone(g.value.option, now, ZeroOption);
      var setErr := Set(k, g.value.value, [Apply(g.value.option)], now);
      if setErr.Err? {
        return false, "", option, setErr;
      }
      return true, g.value.value, g.value.option, Nil;
    }

    /** Del: sends DeleteSQL with the key and the time; when the store accepts it the
        cache entry is evicted and found is true, whether or not a row matched. */
    method Del(k: string, now: Time) returns (found: bool, err: MaybeError)
      modifies this, backend
      ensures k == "" ==> !found && err == Err(EmptyKey) && cache == old(cache) && unchanged(backend)
      ensures k != "" ==>
        backend.writes == old(backend.writes) + [DeleteStatement(k, now)] && backend.queries == old(backend.queries) &&
        var e := backend.exec(old(backend.writes), DeleteStatement(k, now));
        (e.Err? ==> !found && err == e && cache == old(cache)) &&
        (e.Nil? ==> found && err == Nil && cache == old(cache) - {k})
      ensures old(KeysNonEmpty()) ==> KeysNonEmpty()
    {
      var check := CheckKey(k);
      if check.Err? {
        return false, check;
      }
      var e := backend.Exec(DeleteStatement(k, now));
      if e.Err? {
        return false, e;
      }
      cache := cache - {k};
      return true, Nil;
    }

    /** `cv` is what Get(k, nil) caches on a miss when the store has received `writes`. */
    ghost predicate Reloaded(k: string, writes: seq<Statement>, now: Time, cv: CacheValue)
    {
      Lookup(k, writes).OneRow? && cv == CacheValue(Lookup(k, writes).value, Lookup(k, writes).option, now)
    }

    /** The queries Get(k, nil) sends for each key of `keys` in turn on a cache miss:
        one GetSQL query per key, none for the empty key, which is refused first. */
    function GetStatements(keys: seq<string>): seq<Statement>
      decreases |keys|
    {
      if keys == [] then []
      else
        var k := keys[|keys| - 1];
        GetStatements(keys[..|keys| - 1]) + (if k == "" then [] else [GetStatement(k)])
    }

    /** The cache after a pass that evicted and re-read `order[..i + 1]` and stopped
        at `order[i]`: that key's read failed with `err` and it is evicted, the keys
        before it were re-read without error, and the keys after it keep the entries
        they had in `before`. */
    ghost predicate StoppedAt(order: seq<string>, i: int, before: map<string, CacheValue>,
                              writes: seq<Statement>, now: Time, err: Error)
      reads this
    {
      && 0 <= i < |order|
      && Lookup(order[i], writes).ReadError? && err == Lookup(order[i], writes).error
      && order[i] !in cache
      && (forall j :: 0 <= j < i ==>
            !Lookup(order[j], writes).ReadError? &&
            (order[j] in cache <==> Lookup(order[j], writes).OneRow?) &&
            (order[j] in cache ==> Reloaded(order[j], writes, now, cache[order[j]])))
      && (forall j :: i < j < |order| ==>
            (order[j] in cache <==> order[j] in before) &&
            (order[j] in cache ==> cache[order[j]] == before[order[j]]))
    }

    /** Refresh: reads the live keys, evicts every cached key that is not live, then
        evicts and re-reads the others one at a time; the first failing re-read ends
        the cycle with the keys not yet visited still cached. */
    method Refresh(now: Time) returns (err: MaybeError)
      modifies this, backend
      ensures var live := KeysAnswer(old(backend.writes));
        live.Failure? ==> err == Err(live.error) && cache == old(cache)
      ensures var live := KeysAnswer(old(backend.writes));
        live.Success? ==> forall k :: k in cache ==> k in old(cache) && k in live.value
      ensures var live := KeysAnswer(old(backend.writes));
        live.Success? && err.Nil? ==>
          cache == Refreshed(old(cache), set k | k in live.value, old(backend.writes), now) &&
          forall k :: k in old(cache) && k in live.value ==> !Lookup(k, old(backend.writes)).ReadError?
      ensures var live := KeysAnswer(old(backend.writes));
        live.Success? && err.Nil? ==>
          exists order :: Lists(order, old(cache).Keys * (set k | k in live.value)) &&
            backend.queries == old(backend.queries) + [KeysStatement()] + GetStatements(order)
      ensures var live := KeysAnswer(old(backend.writes));
        live.Success? && err.Err? ==>
          exists order, i :: Lists(order, old(cache).Keys * (set k | k in live.value)) &&
            StoppedAt(order, i, old(cache), old(backend.writes), now, err.error) &&
            backend.queries == old(backend.queries) + [KeysStatement()] + GetStatements(order[..i + 1])
      ensures var live := KeysAnswer(old(backend.writes));
        live.Failure? ==> backend.queries == old(backend.queries) + [KeysStatement()]
      ensures backend.writes == old(backend.writes)
      ensures old(KeysNonEmpty()) ==> KeysNonEmpty()
    {
      var keys, keysErr := Keys();
      if keysErr.Err? {
        return keysErr;
      }
      var live := set k | k in keys;
      ghost var queried := backend.queries;
      var cacheKeys := EvictNotLive(live);
      ghost var evicted := cache;
      assert Lists(cacheKeys, old(cache).Keys * live);
      err := Reload(cacheKeys, now);
      if err.Nil? {
        ghost var target := Refreshed(old(cache), live, old(backend.writes), now);
        assert forall k :: k in cache <==> k in target;
      } else {
        ghost var i :| StoppedAt(cacheKeys, i, evicted, old(backend.writes), now, err.error) &&
                       backend.queries == queried + GetStatements(cacheKeys[..i + 1]);
        assert StoppedAt(cacheKeys, i, old(cache), old(backend.writes), now, err.error);
      }
    }

    /** Refresh's first loop: evicts every cached key that is not live and lists the
        others, each once, in the order the cache is walked. */
    method EvictNotLive(live: set<string>) returns (cacheKeys: seq<string>)
      modifies this
      ensures cache == map k | k in old(cache) && k in live :: old(cache)[k]
      ensures forall k :: k in cacheKeys <==> k in cache
      ensures forall i, j :: 0 <= i < j < |cacheKeys| ==> cacheKeys[i] != cacheKeys[j]
    {
      var pending := cache.Keys;
      cacheKeys := [];
      while pending != {}
        invariant pending <= old(cache).Keys
        invariant forall k :: k in cache <==> k in old(cache) && (k in pending || k in live)
        invariant forall k :: k in cache ==> cache[k] == old(cache)[k]
        invariant forall k :: k in cacheKeys <==> k in old(cache) && k !in pending && k in live
        invariant forall i, j :: 0 <= i < j < |cacheKeys| ==> cacheKeys[i] != cacheKeys[j]
        decreases pending
      {
        var k :| k in pending;
        if k !in live {
          cache := cache - {k};
        } else {
          cacheKeys := cacheKeys + [k];
        }
        pending := pending - {k};
      }
    }

    /** Refresh's second loop: evicts each listed key in turn and re-reads it with
        Get(k, nil), stopping at the first error; keys not listed are untouched. */
    method Reload(cacheKeys: seq<string>, now: Time) returns (err: MaybeError)
      requires forall i, j :: 0 <= i < j < |cacheKeys| ==> cacheKeys[i] != cacheKeys[j]
      modifies this, backend
      ensures backend.writes == old(backend.writes)
      ensures forall k :: k !in cacheKeys ==>
        (k in cache <==> k in old(cache)) && (k in cache ==> cache[k] == old(cache)[k])
      ensures forall k :: k in cache && k in cacheKeys ==>
        (k in old(cache) && cache[k] == old(cache)[k]) || Reloaded(k, old(backend.writes), now, cache[k])
      ensures err.Nil? ==> forall k :: k in cacheKeys ==>
        !Lookup(k, old(backend.writes)).ReadError? &&
        (k in cache <==> Lookup(k, old(backend.writes)).OneRow?) &&
        (k in cache ==> Reloaded(k, old(backend.writes), now, cache[k]))
      ensures err.Nil? ==> backend.queries == old(backend.queries) + GetStatements(cacheKeys)
      ensures err.Err? ==>
        exists i :: StoppedAt(cacheKeys, i, old(cache), old(backend.writes), now, err.error) &&
                    backend.queries == old(backend.queries) + GetStatements(cacheKeys[..i + 1])
    {
      ghost var writes := backend.writes;
      var i := 0;
      while i < |cacheKeys|
        invariant 0 <= i <= |cacheKeys|
        invariant backend.writes == writes
        invariant backend.queries == old(backend.queries) + GetStatements(cacheKeys[..i])
        invariant forall k :: k !in cacheKeys ==>
          (k in cache <==> k in old(cache)) && (k in cache ==> cache[k] == old(cache)[k])
        invariant forall j :: i <= j < |cacheKeys| ==>
          (cacheKeys[j] in cache <==> cacheKeys[j] in old(cache)) &&
          (cacheKeys[j] in cache ==> cache[cacheKeys[j]] == old(cache)[cacheKeys[j]])
        invariant forall j :: 0 <= j < i ==>
          !Lookup(cacheKeys[j], writes).ReadError? &&
          (cacheKeys[j] in cache <==> Lookup(cacheKeys[j], writes).OneRow?) &&
          (cacheKeys[j] in cache ==> Reloaded(cacheKeys[j], writes, now, cache[cacheKeys[j]]))
      {
        var k := cacheKeys[i];
        assert cacheKeys[..i + 1][..i] == cacheKeys[..i];
        var e := ReloadKey(k, now);
        if e.Err? {
          assert k !in cache;
          assert StoppedAt(cacheKeys, i, old(cache), writes, now, e.error);
          return e;
        }
        i := i + 1;
      }
      assert cacheKeys[..i] == cacheKeys;
      return Nil;
    }

    /** One step of Refresh's second loop: evicts `k` and re-reads it with Get(k, nil). */
    method ReloadKey(k: string, now: Time) returns (e: MaybeError)
      modifies this, backend
      ensures backend.writes == old(backend.writes)
      ensures backend.queries == old(backend.queries) + (if k == "" then [] else [GetStatement(k)])
      ensures forall k' :: k' != k ==>
        (k' in cache <==> k' in old(cache)) && (k' in cache ==> cache[k'] == old(cache)[k'])
      ensures e.Err? <==> Lookup(k, old(backend.writes)).ReadError?
      ensures e.Err? ==> e.error == Lookup(k, old(backend.writes)).error && k !in cache
      ensures e.Nil? ==>
        (k in cache <==> Lookup(k, old(backend.writes)).OneRow?) &&
        (k in cache ==> Reloaded(k, old(backend.writes), now, cache[k]))
    {
      cache := cache - {k};
      var _, _, _, err := Get(k, NoGenerator, now);
      return err;
    }
  }

  // ---------------------------------------------------------------------------
  // Client sequences

  /** Set followed by Get with no generator: the Get is a cache hit that returns the
      value just stored and the zero Option, without reaching the store. */
  method SetThenGet(c: Client, k: string, v: string, now: Time) returns (found: bool, got: string, option: Option, err: MaybeError)
    modifies c, c.backend
    ensures var plan := c.SetPlan(k, v, [], now);
      plan.Success? && c.backend.exec(old(c.backend.writes), plan.value).Nil? ==>
        found && got == v && option == ZeroOption && err == Nil &&
        c.backend.writes == old(c.backend.writes) + [plan.value] && c.backend.queries == old(c.backend.queries)
  {
    var setErr := c.Set(k, v, [], now);
    NoFnsKeepOption(now, ZeroOption);
    found, got, option, err := c.Get(k, NoGenerator, now);
  }

  /** Del twice: the second Del reports found again when its exec succeeds and
      leaves the cache as the first left it. */
  method DelTwice(c: Client, k: string, now: Time) returns (first: bool, second: bool, err: MaybeError)
    modifies c, c.backend
    ensures var e1 := c.backend.exec(old(c.backend.writes), c.DeleteStatement(k, now));
      var e2 := c.backend.exec(old(c.backend.writes) + [c.DeleteStatement(k, now)], c.DeleteStatement(k, now));
      k != "" && e1.Nil? && e2.Nil? ==>
        first && second && err == Nil && c.cache == old(c.cache) - {k}
  {
    var err1;
    first, err1 := c.Del(k, now);
    ghost var once := c.cache;
    second, err := c.Del(k, now);
    assert err1.Nil? ==> c.cache == once - {k};
  }

  /** Del followed by Get with no generator: once the delete is accepted the Get
      misses the cache and reads the store again. */
  method DelThenGet(c: Client, k: string, now: Time) returns (deleted: bool, found: bool, v: string)
    modifies c, c.backend
    ensures k != "" && c.backend.exec(old(c.backend.writes), c.DeleteStatement(k, now)).Nil? ==>
      deleted &&
      c.backend.queries == old(c.backend.queries) + [c.GetStatement(k)] &&
      (found <==> c.Lookup(k, old(c.backend.writes) + [c.DeleteStatement(k, now)]).OneRow?)
  {
    var delErr, option, getErr;
    deleted, delErr := c.Del(k, now);
    found, v, option, getErr := c.Get(k, NoGenerator, now);
  }

  /** Generator hydration: a key missing from cache and store is generated and
      persisted, and a later Get without a generator returns it from the cache. */
  method GenerateThenGet(c: Client, k: string, gen: GeneratorFn, now: Time)
    returns (found: bool, v: string, option: Option, err: MaybeError,
             again: bool, v2: string, option2: Option, err2: MaybeError)
    modifies c, c.backend
    ensures var g := gen(k);
      k != "" && k !in old(c.cache) && c.Lookup(k, old(c.backend.writes)).NoRow? && g.Success? &&
      (var plan := c.SetPlan(k, g.value.value, [Apply(g.value.option)], now);
       plan.Success? && c.backend.exec(old(c.backend.writes), plan.value).Nil?) ==>
        found && v == g.value.value && option == g.value.option && err == Nil &&
        again && v2 == g.value.value && option2 == g.value.option && err2 == Nil &&
        c.backend.queries == old(c.backend.queries) + [c.GetStatement(k)]
  {
    found, v, option, err := c.Get(k, Generator(gen), now);
    again, v2, option2, err2 := c.Get(k, NoGenerator, now);
  }
}
