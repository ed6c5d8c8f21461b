/**
 * CommonService: the query composer that turns the `where__…` and `order__…`
 * properties of a request into TypeORM find options, and the offset and
 * cursor pagination strategies built on it.
 */
module Common {
  import opened JsRuntime

  /** The value stored under a field of a `where` or `order` option: the raw
      request value (`{field: value}`), or the opaque predicate a TypeORM
      operator constructor builds from it (`MoreThan(value)`, ...). */
  datatype Clause = Equals(value: Value) | Operator(ctor: string, operand: Value)

  type Clauses = map<string, Clause>

  /** FILTER_MAPPER: operator token -> the operator constructor it applies.
      Its contents are not part of this model, so it is a parameter. */
  type FilterMapper = map<string, string>

  /** FindManyOptions; None is a property the object does not have. */
  datatype FindOptions = FindOptions(
    where: Option<Clauses>,
    order: Option<Clauses>,
    take: Option<Value>,
    skip: Option<Value>)

  /** `{}` as find options. */
  const NoOptions := FindOptions(None, None, None, None)

  /** The data store behind a TypeORM repository: what `find` and
      `findAndCount` return for a query, and each row's id. */
  datatype Repository<!T> = Repository(
    find: FindOptions -> seq<T>,
    findAndCount: FindOptions -> (seq<T>, nat),
    idOf: T -> int)

  /** The next-page link: a base path and its query pairs in order. */
  datatype Link = Link(path: string, query: seq<(string, string)>)

  /** The two response envelopes. */
  datatype Page<T> =
    | OffsetPage(data: seq<T>, total: nat)
    | CursorPage(data: seq<T>, after: int, count: nat, next: Link)

  const Separator := "__"
  const WherePrefix := "where__"
  const OrderPrefix := "order__"
  const MoreThanKey := "where__id__more_than"
  const LessThanKey := "where__id__less_than"
  /** The second key the echo loop skips, spelled as in the source. */
  const MisspelledLessThanKey := "where__id_less_than"

  const MalformedWhereMessage := "where 필터는 split 했을 때 길이가 2 또는 3이어야 합니다. 문제 되는 키값 : "
  const MalformedOrderMessage := "order 는 split 했을 때 길이가 2 이어야 합니다."

  // ------------------------------------------------------- object spread

  function Override<X>(base: Option<X>, over: Option<X>): (r: Option<X>)
    ensures over.Some? ==> r == over
    ensures over.None? ==> r == base
  {
    if over.Some? then over else base
  }

  /** `{...base, ...override}`: every property the override has wins. */
  function Merge(base: FindOptions, override: FindOptions): (r: FindOptions)
    ensures override.where.Some? ==> r.where == override.where
    ensures override.order.Some? ==> r.order == override.order
    ensures override.take.Some? ==> r.take == override.take
    ensures override.skip.Some? ==> r.skip == override.skip
    ensures override == NoOptions ==> r == base
  {
    FindOptions(
      Override(base.where, override.where),
      Override(base.order, override.order),
      Override(base.take, override.take),
      Override(base.skip, override.skip))
  }

  // ------------------------------------------------------- key parsing

  /** parseWhereFilter: a key of 2 `__`-segments yields `{field: value}`, one
      of 3 segments `{field: FILTER_MAPPER[op](value)}`; any other count is a
      BadRequest naming the key, and an operator the mapper lacks is the
      TypeError of calling undefined. */
  function ParseWhereFilter(key: string, value: Value, mapper: FilterMapper): (r: Result<Clauses>)
    ensures var parts := Split(key, Separator);
      && (r.Ok? <==> |parts| == 2 || (|parts| == 3 && parts[2] in mapper))
      && (r.Ok? ==> r.value.Keys == {parts[1]})
      && (|parts| == 2 ==> r == Ok(map[parts[1] := Equals(value)]))
      && (|parts| == 3 && parts[2] in mapper ==> r == Ok(map[parts[1] := Operator(mapper[parts[2]], value)]))
      && (|parts| == 3 && parts[2] !in mapper ==> r == Err(TypeError))
      && (|parts| != 2 && |parts| != 3 ==> r == Err(BadRequest(MalformedWhereMessage + key)))
  {
    var parts := Split(key, Separator);
    if |parts| != 2 && |parts| != 3 then Err(BadRequest(MalformedWhereMessage + key))
    else if |parts| == 2 then Ok(map[parts[1] := Equals(value)])
    else if parts[2] in mapper then Ok(map[parts[1] := Operator(mapper[parts[2]], value)])
    else Err(TypeError)
  }

  /** parseOrderFilter (never called): only 2-segment keys, `{field: value}`. */
  function ParseOrderFilter(key: string, value: Value): (r: Result<Clauses>)
    ensures r.Ok? <==> |Split(key, Separator)| == 2
    ensures r.Ok? ==> r.value == map[Split(key, Separator)[1] := Equals(value)]
    ensures r.Err? ==> r.error == BadRequest(MalformedOrderMessage)
  {
    var parts := Split(key, Separator);
    if |parts| != 2 then Err(BadRequest(MalformedOrderMessage))
    else Ok(map[parts[1] := Equals(value)])
  }

  /** A string in which `__` cannot start before its end when followed by
      `__`: it has no `__` and does not end in `_`. */
  predicate Segment(s: string) {
    Free(s, Separator) && (|s| == 0 || s[|s| - 1] != '_')
  }

  /** No two consecutive underscores, checked character by character. */
  predicate NoDoubleUnderscore(s: string) {
    NoDoubleUnderscoreFrom(s, 0)
  }

  /** No two consecutive underscores from index i on. */
  predicate NoDoubleUnderscoreFrom(s: string, i: nat)
    decreases |s| - i
  {
    i + 1 >= |s| || (!(s[i] == '_' && s[i + 1] == '_') && NoDoubleUnderscoreFrom(s, i + 1))
  }

  lemma {:induction false} NoDoubleUnderscoreFromFree(s: string, i: nat)
    requires NoDoubleUnderscoreFrom(s, i)
    ensures forall j :: i <= j <= |s| - 2 ==> !MatchAt(s, Separator, j)
    decreases |s| - i
  {
    if i + 1 < |s| {
      NoDoubleUnderscoreFromFree(s, i + 1);
      assert s[i..i + 2] == [s[i], s[i + 1]];
    }
  }

  lemma NoDoubleUnderscoreFree(s: string)
    requires NoDoubleUnderscore(s)
    ensures Free(s, Separator)
  {
    NoDoubleUnderscoreFromFree(s, 0);
  }

  lemma SegmentBoundary(a: string, b: string)
    requires Segment(a)
    ensures Split(a + Separator + b, Separator) == [a] + Split(b, Separator)
  {
    var s := a + Separator + b;
    forall i | 0 <= i < |a| ensures !MatchAt(s, Separator, i) {
      if i < |a| - 1 {
        assert s[i..i + 2] == a[i..i + 2];
        assert !MatchAt(a, Separator, i);
      } else {
        assert s[i] == a[|a| - 1];
      }
    }
    SplitAfter(a, Separator, b);
  }

  /** `prefix__field` with plain segments is an equality filter on field. */
  lemma ParseEqualityKey(prefix: string, field: string, value: Value, mapper: FilterMapper)
    requires Segment(prefix) && Free(field, Separator)
    ensures ParseWhereFilter(prefix + Separator + field, value, mapper) == Ok(map[field := Equals(value)])
  {
    SegmentBoundary(prefix, field);
    SplitFree(field, Separator);
  }

  /** `prefix__field__op` with plain segments applies the operator op. */
  lemma ParseOperatorKey(prefix: string, field: string, op: string, value: Value, mapper: FilterMapper)
    requires Segment(prefix) && Segment(field) && Free(op, Separator)
    ensures ParseWhereFilter(prefix + Separator + (field + Separator + op), value, mapper)
         == if op in mapper then Ok(map[field := Operator(mapper[op], value)])
            else Err(TypeError)
  {
    SegmentBoundary(field, op);
    SplitFree(op, Separator);
    SegmentBoundary(prefix, field + Separator + op);
  }

  /** A key of four plain segments is rejected, whatever its prefix. */
  lemma ParseRejectsFourSegments(a: string, b: string, c: string, d: string, value: Value, mapper: FilterMapper)
    requires Segment(a) && Segment(b) && Segment(c) && Free(d, Separator)
    ensures var key := a + Separator + (b + Separator + (c + Separator + d));
      ParseWhereFilter(key, value, mapper) == Err(BadRequest(MalformedWhereMessage + key))
  {
    var cd := c + Separator + d;
    var bcd := b + Separator + cd;
    var key := a + Separator + bcd;
    assert |Split(cd, Separator)| == 2 by {
      SegmentBoundary(c, d);
      SplitFree(d, Separator);
    }
    assert |Split(bcd, Separator)| == 3 by {
      SegmentBoundary(b, cd);
    }
    assert |Split(key, Separator)| == 4 by {
      SegmentBoundary(a, bcd);
    }
  }

  // ------------------------------------------------------- composition

  predicate IsWhereKey(key: string) { StartsWith(key, WherePrefix) }
  predicate IsOrderKey(key: string) { StartsWith(key, OrderPrefix) }

  /** The where and order maps under construction. */
  type ClausePair = (Clauses, Clauses)

  const NoClauses: ClausePair := (map[], map[])

  /** What one request property adds to (where, order). */
  function EntryClauses(entry: (string, Value), mapper: FilterMapper): (r: Result<ClausePair>)
    ensures !IsWhereKey(entry.0) && !IsOrderKey(entry.0) ==> r == Ok(NoClauses)
  {
    var (key, value) := entry;
    if IsWhereKey(key) then
      match ParseWhereFilter(key, value, mapper)
      case Err(e) => Err(e)
      case Ok(c) => Ok((c, map[]))
    else if IsOrderKey(key) then
      match ParseWhereFilter(key, value, mapper)
      case Err(e) => Err(e)
      case Ok(c) => Ok((map[], c))
    else Ok(NoClauses)
  }

  /** `{...acc, ...more}` on both maps; the first exception wins. */
  function Then(first: Result<ClausePair>, more: Result<ClausePair>): Result<ClausePair> {
    match first
    case Err(e) => Err(e)
    case Ok(x) =>
      match more
      case Err(e) => Err(e)
      case Ok(y) => Ok((x.0 + y.0, x.1 + y.1))
  }

  lemma ThenAssociative(x: Result<ClausePair>, y: Result<ClausePair>, z: Result<ClausePair>)
    ensures Then(Then(x, y), z) == Then(x, Then(y, z))
  {
    if x.Ok? && y.Ok? && z.Ok? {
      var a, b, c := x.value, y.value, z.value;
      assert (a.0 + b.0) + c.0 == a.0 + (b.0 + c.0);
      assert (a.1 + b.1) + c.1 == a.1 + (b.1 + c.1);
    }
  }

  lemma ThenUnit(x: Result<ClausePair>)
    ensures Then(x, Ok(NoClauses)) == x
  {
    if x.Ok? {
      assert x.value.0 + map[] == x.value.0;
      assert x.value.1 + map[] == x.value.1;
    }
  }

  /** The where and order maps after walking the properties in order, or the
      first exception thrown. */
  function ComposeClauses(dto: Entries, mapper: FilterMapper): Result<ClausePair>
    decreases |dto|
  {
    if |dto| == 0 then Ok(NoClauses)
    else Then(ComposeClauses(dto[..|dto| - 1], mapper), EntryClauses(dto[|dto| - 1], mapper))
  }

  /** A failed composition fails with the exception of one of the request's
      properties. */
  lemma {:induction false} ComposeErrorFromEntry(dto: Entries, mapper: FilterMapper)
    requires ComposeClauses(dto, mapper).Err?
    ensures exists i :: 0 <= i < |dto| && EntryClauses(dto[i], mapper) == Err(ComposeClauses(dto, mapper).error)
  {
    var front, last := dto[..|dto| - 1], dto[|dto| - 1];
    if ComposeClauses(front, mapper).Err? {
      ComposeErrorFromEntry(front, mapper);
      var i :| 0 <= i < |front| && EntryClauses(front[i], mapper) == Err(ComposeClauses(front, mapper).error);
      assert dto[i] == front[i];
    } else {
      assert EntryClauses(dto[|dto| - 1], mapper) == Err(ComposeClauses(dto, mapper).error);
    }
  }

  /** composeFindOptions: the clauses, `take: dto.page`, and `skip` computed
      from take and page when page is truthy, null otherwise. */
  function Composed(dto: Entries, mapper: FilterMapper): (r: Result<FindOptions>)
    ensures r.Ok? <==> ComposeClauses(dto, mapper).Ok?
    ensures r.Ok? ==> r.value.where == Some(ComposeClauses(dto, mapper).value.0)
    ensures r.Ok? ==> r.value.order == Some(ComposeClauses(dto, mapper).value.1)
    ensures r.Ok? ==> r.value.take == Some(Get(dto, "page"))
    ensures r.Ok? && !IsTruthy(Get(dto, "page")) ==> r.value.skip == Some(Null)
    ensures r.Ok? && Get(dto, "page").Num? && Get(dto, "page").n != 0 && Get(dto, "take").Num?
      ==> r.value.skip == Some(Num(Get(dto, "take").n * (Get(dto, "page").n - 1)))
  {
    match ComposeClauses(dto, mapper)
    case Err(e) => Err(e)
    case Ok(c) =>
      var page := Get(dto, "page");
      Ok(FindOptions(
        Some(c.0), Some(c.1), Some(page),
        Some(if IsTruthy(page) then Mul(Get(dto, "take"), Sub(page, Num(1))) else Null)))
  }

  /** Walking a + b is walking a, then b on top of it. */
  lemma {:induction false} ComposeClausesAppend(a: Entries, b: Entries, mapper: FilterMapper)
    ensures ComposeClauses(a + b, mapper) == Then(ComposeClauses(a, mapper), ComposeClauses(b, mapper))
    decreases |b|
  {
    if |b| == 0 {
      assert a + b == a;
      ThenUnit(ComposeClauses(a, mapper));
    } else {
      var b' := b[..|b| - 1];
      var e := b[|b| - 1];
      assert (a + b)[..|a + b| - 1] == a + b';
      assert (a + b)[|a + b| - 1] == e;
      ComposeClausesAppend(a, b', mapper);
      ThenAssociative(ComposeClauses(a, mapper), ComposeClauses(b', mapper), EntryClauses(e, mapper));
    }
  }

  /** A property that is neither a where nor an order key changes nothing. */
  lemma ComposeIgnoresOtherKeys(a: Entries, entry: (string, Value), b: Entries, mapper: FilterMapper)
    requires !IsWhereKey(entry.0) && !IsOrderKey(entry.0)
    ensures ComposeClauses(a + [entry] + b, mapper) == ComposeClauses(a + b, mapper)
  {
    var one: Entries := [entry];
    assert one[..0] == [];
    assert ComposeClauses(one, mapper) == Ok(NoClauses) by {
      assert Then(Ok(NoClauses), Ok(NoClauses)) == Ok(NoClauses) by { ThenUnit(Ok(NoClauses)); }
    }
    ComposeClausesAppend(a + one, b, mapper);
    ComposeClausesAppend(a, one, mapper);
    ComposeClausesAppend(a, b, mapper);
    ThenUnit(ComposeClauses(a, mapper));
  }

  /** Composition succeeds exactly when every property's parse succeeds. */
  lemma {:induction false} ComposeSucceedsIff(dto: Entries, mapper: FilterMapper)
    ensures ComposeClauses(dto, mapper).Ok? <==>
      forall i :: 0 <= i < |dto| ==> EntryClauses(dto[i], mapper).Ok?
    decreases |dto|
  {
    if |dto| > 0 {
      var front := dto[..|dto| - 1];
      ComposeSucceedsIff(front, mapper);
      assert forall i :: 0 <= i < |front| ==> front[i] == dto[i];
    }
  }

  /** A where or order key that does not split into 2 or 3 segments makes the
      whole composition fail. */
  lemma ComposeRejectsMalformed(dto: Entries, mapper: FilterMapper, i: nat)
    requires i < |dto| && (IsWhereKey(dto[i].0) || IsOrderKey(dto[i].0))
    requires |Split(dto[i].0, Separator)| != 2 && |Split(dto[i].0, Separator)| != 3
    ensures Composed(dto, mapper).Err?
  {
    ComposeSucceedsIff(dto, mapper);
    assert EntryClauses(dto[i], mapper).Err?;
  }

  /** A field set by a later part of the request overrides the earlier part. */
  lemma ComposeLaterWins(a: Entries, b: Entries, mapper: FilterMapper, field: string)
    requires ComposeClauses(a + b, mapper).Ok?
    ensures ComposeClauses(b, mapper).Ok?
    ensures field in ComposeClauses(b, mapper).value.0 ==>
      field in ComposeClauses(a + b, mapper).value.0 &&
      ComposeClauses(a + b, mapper).value.0[field] == ComposeClauses(b, mapper).value.0[field]
    ensures field in ComposeClauses(b, mapper).value.1 ==>
      field in ComposeClauses(a + b, mapper).value.1 &&
      ComposeClauses(a + b, mapper).value.1[field] == ComposeClauses(b, mapper).value.1[field]
  {
    ComposeClausesAppend(a, b, mapper);
  }

  /** The last where property decides its field's clause. */
  lemma ComposeLastWhereWins(dto: Entries, key: string, value: Value, mapper: FilterMapper)
    requires IsWhereKey(key) && ComposeClauses(dto + [(key, value)], mapper).Ok?
    ensures ParseWhereFilter(key, value, mapper).Ok?
    ensures var field := Split(key, Separator)[1];
      field in ComposeClauses(dto + [(key, value)], mapper).value.0 &&
      ComposeClauses(dto + [(key, value)], mapper).value.0[field] == ParseWhereFilter(key, value, mapper).value[field]
  {
    var one: Entries := [(key, value)];
    assert one[..0] == [];
    ComposeLaterWins(dto, one, mapper, Split(key, Separator)[1]);
    assert ComposeClauses(one, mapper) == Then(Ok(NoClauses), EntryClauses((key, value), mapper));
  }

  /** Order keys go through parseWhereFilter, so an `order__field__op` key
      is not rejected: it orders by the operator clause. */
  lemma OrderKeyWithOperatorAccepted(field: string, op: string, value: Value, mapper: FilterMapper)
    requires Segment(field) && Free(op, Separator) && op in mapper
    ensures var key := "order" + Separator + (field + Separator + op);
      EntryClauses((key, value), mapper) == Ok((map[], map[field := Operator(mapper[op], value)]))
  {
    var key := "order" + Separator + (field + Separator + op);
    assert NoDoubleUnderscore("order");
    NoDoubleUnderscoreFree("order");
    ParseOperatorKey("order", field, op, value, mapper);
    assert key[..|OrderPrefix|] == OrderPrefix;
    assert key[0] == 'o';
  }

  /** One more property of the prefix is one more spread. */
  lemma ComposePrefixStep(dto: Entries, i: nat, mapper: FilterMapper)
    requires i < |dto|
    ensures ComposeClauses(dto[..i + 1], mapper) == Then(ComposeClauses(dto[..i], mapper), EntryClauses(dto[i], mapper))
  {
    assert dto[..i + 1][..i] == dto[..i];
  }

  /** Once the clauses are known, composeFindOptions adds take and skip from page. */
  lemma ComposedFromClauses(dto: Entries, mapper: FilterMapper, c: ClausePair)
    requires ComposeClauses(dto, mapper) == Ok(c)
    ensures Composed(dto, mapper) == Ok(FindOptions(Some(c.0), Some(c.1), Some(Get(dto, "page")),
      Some(if IsTruthy(Get(dto, "page")) then Mul(Get(dto, "take"), Sub(Get(dto, "page"), Num(1))) else Null)))
  {
  }

  /** The first property whose parse throws decides the outcome. */
  lemma ComposeStopsAtError(dto: Entries, i: nat, mapper: FilterMapper)
    requires i < |dto| && ComposeClauses(dto[..i], mapper).Ok? && EntryClauses(dto[i], mapper).Err?
    ensures Composed(dto, mapper) == Err(EntryClauses(dto[i], mapper).error)
  {
    var e := EntryClauses(dto[i], mapper).error;
    var front, rest := dto[..i + 1], dto[i + 1..];
    ComposePrefixStep(dto, i, mapper);
    assert ComposeClauses(front, mapper) == Err(e);
    ComposeClausesAppend(front, rest, mapper);
    assert front + rest == dto;
    assert ComposeClauses(dto, mapper) == Err(e);
  }

  /** One pass of composeFindOptions' loop: a `where__` property spreads its
      filter into where, an `order__` property into order, any other leaves both. */
  method AddEntry(where: Clauses, order: Clauses, key: string, value: Value, mapper: FilterMapper)
    returns (r: Result<ClausePair>)
    ensures r == Then(Ok((where, order)), EntryClauses((key, value), mapper))
  {
    if IsWhereKey(key) {
      var parsed := ParseWhereFilter(key, value, mapper);
      if parsed.Err? {
        return Err(parsed.error);
      }
      assert order + map[] == order;
      r := Ok((where + parsed.value, order));
    } else if IsOrderKey(key) {
      var parsed := ParseWhereFilter(key, value, mapper);
      if parsed.Err? {
        return Err(parsed.error);
      }
      assert where + map[] == where;
      r := Ok((where, order + parsed.value));
    } else {
      assert where + map[] == where && order + map[] == order;
      r := Ok((where, order));
    }
  }

  /** composeFindOptions, as the loop the source runs. */
  method ComposeFindOptions(dto: Entries, mapper: FilterMapper) returns (r: Result<FindOptions>)
    ensures r == Composed(dto, mapper)
  {
    var where: Clauses := map[];
    var order: Clauses := map[];
    var i := 0;
    while i < |dto|
      invariant 0 <= i <= |dto|
      invariant ComposeClauses(dto[..i], mapper) == Ok((where, order))
    {
      var (key, value) := dto[i];
      var added := AddEntry(where, order, key, value, mapper);
      ComposePrefixStep(dto, i, mapper);
      if added.Err? {
        ComposeStopsAtError(dto, i, mapper);
        return Err(added.error);
      }
      where, order := added.value.0, added.value.1;
      i := i + 1;
    }
    assert dto[..|dto|] == dto;
    ComposedFromClauses(dto, mapper, (where, order));
    var page := Get(dto, "page");
    var skip := if IsTruthy(page) then Mul(Get(dto, "take"), Sub(page, Num(1))) else Null;
    r := Ok(FindOptions(Some(where), Some(order), Some(page), Some(skip)));
  }

  // ------------------------------------------------------- next link

  /** The cursor key appended to the next link. */
  function CursorKey(dto: Entries): (key: string)
    ensures key == MoreThanKey <==> Get(dto, "order__createdAt") == Str("ASC")
    ensures key == MoreThanKey || key == LessThanKey
  {
    if Get(dto, "order__createdAt") == Str("ASC") then MoreThanKey else LessThanKey
  }

  /** A property the echo loop copies into the next link. */
  predicate Echoed(entry: (string, Value)) {
    IsTruthy(entry.1) && entry.0 != MoreThanKey && entry.0 != MisspelledLessThanKey
  }

  /** The echoed properties, in order, as URL query pairs. */
  function Echo(dto: Entries): (q: seq<(string, string)>)
    ensures |q| <= |dto|
    ensures forall i :: 0 <= i < |q| ==> q[i].0 != MoreThanKey && q[i].0 != MisspelledLessThanKey
  {
    if |dto| == 0 then []
    else
      var last := dto[|dto| - 1];
      Echo(dto[..|dto| - 1]) + (if Echoed(last) then [(last.0, ToJsString(last.1))] else [])
  }

  /** The query of the next link: the echoed properties, then the cursor. */
  function NextQuery(dto: Entries, lastId: int): (q: seq<(string, string)>)
    ensures |q| >= 1 && q[|q| - 1] == (CursorKey(dto), IntToString(lastId))
    ensures q[..|q| - 1] == Echo(dto)
    ensures forall i :: 0 <= i < |q| - 1 ==> q[i].0 != MoreThanKey
  {
    Echo(dto) + [(CursorKey(dto), IntToString(lastId))]
  }

  /** Echoing keeps the order of the request: a + b echoes as a, then b. */
  lemma {:induction false} EchoAppend(a: Entries, b: Entries)
    ensures Echo(a + b) == Echo(a) + Echo(b)
    decreases |b|
  {
    if |b| == 0 {
      assert a + b == a;
    } else {
      assert (a + b)[..|a + b| - 1] == a + b[..|b| - 1];
      EchoAppend(a, b[..|b| - 1]);
    }
  }

  /** A pair is in the echo exactly when it comes from a truthy property that
      is not one of the two skipped keys. */
  lemma {:induction false} EchoContains(dto: Entries, p: (string, string))
    ensures p in Echo(dto) <==>
      exists i :: 0 <= i < |dto| && Echoed(dto[i]) && p == (dto[i].0, ToJsString(dto[i].1))
    decreases |dto|
  {
    if |dto| > 0 {
      var front := dto[..|dto| - 1];
      EchoContains(front, p);
      assert forall i :: 0 <= i < |front| ==> front[i] == dto[i];
      if p in Echo(dto) && p !in Echo(front) {
        assert p == (dto[|dto| - 1].0, ToJsString(dto[|dto| - 1].1));
      }
    }
  }

  /** Because the skip list misspells `where__id__less_than`, an incoming
      `where__id__less_than` is echoed; when the cursor key is that key too,
      the next link carries it twice. */
  lemma LessThanKeyEchoed(dto: Entries, i: nat, lastId: int)
    requires i < |dto| && dto[i].0 == LessThanKey && IsTruthy(dto[i].1)
    ensures (LessThanKey, ToJsString(dto[i].1)) in Echo(dto)
    ensures CursorKey(dto) == LessThanKey ==>
      var q := NextQuery(dto, lastId);
      exists j, k :: 0 <= j < k < |q| && q[j].0 == LessThanKey && q[k].0 == LessThanKey
  {
    EchoContains(dto, (LessThanKey, ToJsString(dto[i].1)));
    var q := NextQuery(dto, lastId);
    var e := Echo(dto);
    var j :| 0 <= j < |e| && e[j] == (LessThanKey, ToJsString(dto[i].1));
    assert q[j] == e[j];
  }

  /** The echo loop of cursorPaginate followed by the cursor append. */
  method BuildNextQuery(dto: Entries, lastId: int) returns (q: seq<(string, string)>)
    ensures q == NextQuery(dto, lastId)
  {
    q := [];
    var i := 0;
    while i < |dto|
      invariant 0 <= i <= |dto|
      invariant q == Echo(dto[..i])
    {
      var (key, value) := dto[i];
      assert dto[..i + 1][..i] == dto[..i];
      if IsTruthy(value) {
        if key != MoreThanKey && key != MisspelledLessThanKey {
          q := q + [(key, ToJsString(value))];
        }
      }
      i := i + 1;
    }
    assert dto[..|dto|] == dto;
    var key := if Get(dto, "order__createdAt") == Str("ASC") then MoreThanKey else LessThanKey;
    q := q + [(key, IntToString(lastId))];
  }

  /** The query pairs of a link, read back as a request object. */
  function AsRequest(q: seq<(string, string)>): (dto: Entries)
    ensures |dto| == |q|
    ensures forall i :: 0 <= i < |q| ==> dto[i] == (q[i].0, Str(q[i].1))
  {
    if |q| == 0 then [] else AsRequest(q[..|q| - 1]) + [(q[|q| - 1].0, Str(q[|q| - 1].1))]
  }

  /** `where__id__<op>` parses as an id filter applying op. */
  lemma IdFilterKeyParses(op: string, value: Value, mapper: FilterMapper)
    requires NoDoubleUnderscore(op)
    ensures ParseWhereFilter("where" + Separator + ("id" + Separator + op), value, mapper) ==
      if op in mapper then Ok(map["id" := Operator(mapper[op], value)]) else Err(TypeError)
  {
    assert NoDoubleUnderscore("where") && NoDoubleUnderscore("id");
    NoDoubleUnderscoreFree("where");
    NoDoubleUnderscoreFree("id");
    NoDoubleUnderscoreFree(op);
    ParseOperatorKey("where", "id", op, value, mapper);
  }

  /** `where__id__more_than` filters id with FILTER_MAPPER['more_than']. */
  lemma MoreThanKeyParses(value: Value, mapper: FilterMapper)
    ensures ParseWhereFilter(MoreThanKey, value, mapper) ==
      if "more_than" in mapper then Ok(map["id" := Operator(mapper["more_than"], value)])
      else Err(TypeError)
  {
    assert MoreThanKey == "where" + Separator + ("id" + Separator + "more_than");
    assert NoDoubleUnderscore("more_than");
    IdFilterKeyParses("more_than", value, mapper);
  }

  /** `where__id__less_than` filters id with FILTER_MAPPER['less_than']. */
  lemma LessThanKeyParses(value: Value, mapper: FilterMapper)
    ensures ParseWhereFilter(LessThanKey, value, mapper) ==
      if "less_than" in mapper then Ok(map["id" := Operator(mapper["less_than"], value)])
      else Err(TypeError)
  {
    assert LessThanKey == "where" + Separator + ("id" + Separator + "less_than");
    assert NoDoubleUnderscore("less_than");
    IdFilterKeyParses("less_than", value, mapper);
  }

  /** A lone `where__id__<op>` pair composes to the id filter with op. */
  lemma IdPairClauses(op: string, value: Value, mapper: FilterMapper)
    requires NoDoubleUnderscore(op) && op in mapper
    ensures var one: Entries := [("where" + Separator + ("id" + Separator + op), value)];
      ComposeClauses(one, mapper) == Ok((map["id" := Operator(mapper[op], value)], map[]))
  {
    var key := "where" + Separator + ("id" + Separator + op);
    var one: Entries := [(key, value)];
    IdFilterKeyParses(op, value, mapper);
    assert key[..|WherePrefix|] == WherePrefix;
    assert one[..0] == [];
    var clause := map["id" := Operator(mapper[op], value)];
    var none: Clauses := map[];
    assert none + clause == clause && none + none == none;
  }

  lemma MoreThanPairClauses(value: Value, mapper: FilterMapper)
    requires "more_than" in mapper
    ensures ComposeClauses([(MoreThanKey, value)], mapper) == Ok((map["id" := Operator(mapper["more_than"], value)], map[]))
  {
    assert MoreThanKey == "where" + Separator + ("id" + Separator + "more_than");
    assert NoDoubleUnderscore("more_than");
    IdPairClauses("more_than", value, mapper);
  }

  lemma LessThanPairClauses(value: Value, mapper: FilterMapper)
    requires "less_than" in mapper
    ensures ComposeClauses([(LessThanKey, value)], mapper) == Ok((map["id" := Operator(mapper["less_than"], value)], map[]))
  {
    assert LessThanKey == "where" + Separator + ("id" + Separator + "less_than");
    assert NoDoubleUnderscore("less_than");
    IdPairClauses("less_than", value, mapper);
  }

  /** Appending a pair that composes to an id filter alone: the order is
      unchanged and the id filter is that pair's. */
  lemma AppendIdPair(echoed: Entries, key: string, value: Value, clause: Clause, mapper: FilterMapper)
    requires ComposeClauses(echoed, mapper).Ok?
    requires ComposeClauses([(key, value)], mapper) == Ok((map["id" := clause], map[]))
    ensures var c := ComposeClauses(echoed + [(key, value)], mapper);
      c.Ok? && c.value.1 == ComposeClauses(echoed, mapper).value.1 && "id" in c.value.0 && c.value.0["id"] == clause
  {
    ComposeClausesAppend(echoed, [(key, value)], mapper);
    var x := ComposeClauses(echoed, mapper).value;
    assert x.1 + map[] == x.1;
  }

  /** Following the next link: if the echoed part composes and does not
      already carry the cursor key, the link filters `id` beyond the last
      item, with MoreThan for ASC and LessThan otherwise. (A query string that
      repeats a key is read back as an array, which is not modelled.) */
  lemma NextLinkFiltersById(dto: Entries, lastId: int, mapper: FilterMapper)
    requires ComposeClauses(AsRequest(Echo(dto)), mapper).Ok?
    requires !HasKey(AsRequest(Echo(dto)), CursorKey(dto))
    requires "more_than" in mapper && "less_than" in mapper
    ensures var c := ComposeClauses(AsRequest(NextQuery(dto, lastId)), mapper);
      && c.Ok?
      && c.value.1 == ComposeClauses(AsRequest(Echo(dto)), mapper).value.1
      && "id" in c.value.0
      && c.value.0["id"] == Operator(
           mapper[if CursorKey(dto) == MoreThanKey then "more_than" else "less_than"],
           Str(IntToString(lastId)))
  {
    var v := Str(IntToString(lastId));
    var echoed := AsRequest(Echo(dto));
    if CursorKey(dto) == MoreThanKey {
      assert AsRequest(NextQuery(dto, lastId)) == echoed + [(MoreThanKey, v)];
      MoreThanPairClauses(v, mapper);
      AppendIdPair(echoed, MoreThanKey, v, Operator(mapper["more_than"], v), mapper);
    } else {
      assert AsRequest(NextQuery(dto, lastId)) == echoed + [(LessThanKey, v)];
      LessThanPairClauses(v, mapper);
      AppendIdPair(echoed, LessThanKey, v, Operator(mapper["less_than"], v), mapper);
    }
  }

  // ------------------------------------------------------- pagination

  /** cursorPaginate's envelope for the rows the find returned; on an empty
      page the next link is null and reading its searchParams crashes. */
  function CursorEnvelope<T>(dto: Entries, results: seq<T>, idOf: T -> int, path: string): (r: Result<Page<T>>)
    ensures r.Err? <==> |results| == 0
    ensures r.Err? ==> r.error == TypeError
    ensures r.Ok? ==> r.value.CursorPage? && r.value.data == results && r.value.count == |results|
    ensures r.Ok? ==> r.value.after == idOf(results[|results| - 1])
    ensures r.Ok? ==> r.value.next.path == path && r.value.next.query == NextQuery(dto, r.value.after)
  {
    if |results| == 0 then Err(TypeError)
    else
      var lastId := idOf(results[|results| - 1]);
      Ok(CursorPage(results, lastId, |results|, Link(path, NextQuery(dto, lastId))))
  }

  /** pagePaginate */
  function PagePaginated<T>(dto: Entries, repo: Repository<T>, mapper: FilterMapper, override: FindOptions): (r: Result<Page<T>>)
    ensures r.Ok? <==> Composed(dto, mapper).Ok?
    ensures r.Err? ==> r.error == Composed(dto, mapper).error
    ensures r.Ok? ==> var (data, count) := repo.findAndCount(Merge(Composed(dto, mapper).value, override));
      r.value == OffsetPage(data, count)
  {
    match Composed(dto, mapper)
    case Err(e) => Err(e)
    case Ok(options) =>
      var (data, count) := repo.findAndCount(Merge(options, override));
      Ok(OffsetPage(data, count))
  }

  /** cursorPaginate */
  function CursorPaginated<T>(dto: Entries, repo: Repository<T>, mapper: FilterMapper, override: FindOptions, path: string): (r: Result<Page<T>>)
    ensures Composed(dto, mapper).Err? ==> r == Err(Composed(dto, mapper).error)
    ensures Composed(dto, mapper).Ok? ==>
      r == CursorEnvelope(dto, repo.find(Merge(Composed(dto, mapper).value, override)), repo.idOf, path)
  {
    match Composed(dto, mapper)
    case Err(e) => Err(e)
    case Ok(options) => CursorEnvelope(dto, repo.find(Merge(options, override)), repo.idOf, path)
  }

  /** paginate: offset mode exactly when `dto.page` is truthy. */
  function Paginated<T>(dto: Entries, repo: Repository<T>, mapper: FilterMapper, override: FindOptions, path: string): (r: Result<Page<T>>)
    ensures IsTruthy(Get(dto, "page")) ==> r == PagePaginated(dto, repo, mapper, override)
    ensures !IsTruthy(Get(dto, "page")) ==> r == CursorPaginated(dto, repo, mapper, override, path)
    ensures r.Ok? ==> (r.value.OffsetPage? <==> IsTruthy(Get(dto, "page")))
    ensures Composed(dto, mapper).Err? ==> r == Err(Composed(dto, mapper).error)
  {
    if IsTruthy(Get(dto, "page")) then PagePaginated(dto, repo, mapper, override)
    else CursorPaginated(dto, repo, mapper, override, path)
  }

  /** A request the composer rejects gets the same exception whatever the
      store holds: no query reaches the repository. */
  lemma RejectedRequestIgnoresRepository<T>(dto: Entries, repo1: Repository<T>, repo2: Repository<T>,
                                            mapper: FilterMapper, override: FindOptions, path: string)
    requires Composed(dto, mapper).Err?
    ensures Paginated(dto, repo1, mapper, override, path) == Paginated(dto, repo2, mapper, override, path)
  {
  }

  method PagePaginate<T>(dto: Entries, repo: Repository<T>, mapper: FilterMapper, override: FindOptions) returns (r: Result<Page<T>>)
    ensures r == PagePaginated(dto, repo, mapper, override)
  {
    var options := ComposeFindOptions(dto, mapper);
    if options.Err? {
      return Err(options.error);
    }
    var (data, count) := repo.findAndCount(Merge(options.value, override));
    r := Ok(OffsetPage(data, count));
  }

  method CursorPaginate<T>(dto: Entries, repo: Repository<T>, mapper: FilterMapper, override: FindOptions, path: string)
    returns (r: Result<Page<T>>)
    ensures r == CursorPaginated(dto, repo, mapper, override, path)
  {
    var options := ComposeFindOptions(dto, mapper);
    if options.Err? {
      return Err(options.error);
    }
    var results := repo.find(Merge(options.value, override));
    if |results| == 0 {
      return Err(TypeError);
    }
    var lastId := repo.idOf(results[|results| - 1]);
    var query := BuildNextQuery(dto, lastId);
    r := Ok(CursorPage(results, lastId, |results|, Link(path, query)));
  }

  method Paginate<T>(dto: Entries, repo: Repository<T>, mapper: FilterMapper, override: FindOptions, path: string)
    returns (r: Result<Page<T>>)
    ensures r == Paginated(dto, repo, mapper, override, path)
  {
    if IsTruthy(Get(dto, "page")) {
      r := PagePaginate(dto, repo, mapper, override);
    } else {
      r := CursorPaginate(dto, repo, mapper, override, path);
    }
  }
}
