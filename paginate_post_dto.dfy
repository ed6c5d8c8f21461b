/**
 * PaginatePostDto: the field defaults a request for the post list starts
 * from, the values class-validator allows, and what the composer makes of
 * the DTO's two id field names.
 */
module PaginatePostDto {
  import opened JsRuntime
  import opened Common

  const OrderKey := "order__createdAt"
  const TakeKey := "take"
  const IdMoreThanField := "where__id_more_than"
  const IdLessThanField := "where__id_less_than"
  const DefaultTake := 20

  /** The initialisers of PaginatePostDto, in declaration order. */
  const Defaults: Entries := [(OrderKey, Str("ASC")), (TakeKey, Num(DefaultTake))]

  /** `obj[key] = value`: an existing property keeps its place, a new one goes last. */
  function Assign(obj: Entries, key: string, value: Value): (r: Entries)
    requires DistinctKeys(obj)
    ensures DistinctKeys(r)
    ensures Get(r, key) == value
    ensures forall k :: k != key ==> Get(r, k) == Get(obj, k)
    ensures forall k :: HasKey(r, k) <==> HasKey(obj, k) || k == key
    decreases |obj|
  {
    if |obj| == 0 then [(key, value)]
    else
      var front, last := obj[..|obj| - 1], obj[|obj| - 1];
      assert obj == front + [last];
      HasKeySnoc(front, last);
      DistinctSnoc(front, last);
      if last.0 == key then
        var r := front + [(key, value)];
        HasKeySnoc(front, (key, value));
        DistinctSnoc(front, (key, value));
        assert r[..|r| - 1] == front;
        r
      else
        var a := Assign(front, key, value);
        var r := a + [last];
        HasKeySnoc(a, last);
        DistinctSnoc(a, last);
        assert r[..|r| - 1] == a;
        r
  }

  /** The DTO instance for a decoded query: the defaults, then every query
      property assigned in order. */
  function Instantiate(query: Entries): (dto: Entries)
    requires DistinctKeys(query)
    ensures DistinctKeys(dto)
    ensures forall k :: HasKey(dto, k) <==> HasKey(query, k) || HasKey(Defaults, k)
  {
    if |query| == 0 then Defaults
    else
      var front, last := query[..|query| - 1], query[|query| - 1];
      assert query == front + [last];
      HasKeySnoc(front, last);
      DistinctSnoc(front, last);
      Assign(Instantiate(front), last.0, last.1)
  }

  /** A property of the instance is the query's when the query has it, and
      the default otherwise. */
  lemma {:induction false} InstantiateGet(query: Entries, key: string)
    requires DistinctKeys(query)
    ensures Get(Instantiate(query), key) == if HasKey(query, key) then Get(query, key) else Get(Defaults, key)
  {
    if |query| > 0 {
      var front, last := query[..|query| - 1], query[|query| - 1];
      InstantiateGet(front, key);
      assert Instantiate(query) == Assign(Instantiate(front), last.0, last.1);
      if key == last.0 {
        assert HasKey(query, key) && Get(query, key) == last.1;
      } else {
        assert Get(query, key) == Get(front, key);
        assert HasKey(query, key) <==> HasKey(front, key) by {
          if HasKey(query, key) {
            var i :| 0 <= i < |query| && query[i].0 == key;
            assert front[i] == query[i];
          }
          if HasKey(front, key) {
            var i :| 0 <= i < |front| && front[i].0 == key;
            assert query[i] == front[i];
          }
        }
      }
    }
  }

  /** Without an order in the query the order is ASC, so the next link's
      cursor key is `where__id__more_than`. */
  lemma DefaultCursorKeyIsMoreThan(query: Entries)
    requires DistinctKeys(query) && !HasKey(query, OrderKey)
    ensures Get(Instantiate(query), OrderKey) == Str("ASC")
    ensures CursorKey(Instantiate(query)) == MoreThanKey
  {
    InstantiateGet(query, OrderKey);
  }

  /** Without a take in the query the take is 20. */
  lemma DefaultTakeIsTwenty(query: Entries)
    requires DistinctKeys(query) && !HasKey(query, TakeKey)
    ensures Get(Instantiate(query), TakeKey) == Num(DefaultTake)
  {
    InstantiateGet(query, TakeKey);
  }

  /** `@IsNumber() @IsOptional()`: absent, null, or a number (not NaN). */
  predicate IsOptionalNumber(v: Value) { v.Undefined? || v.Null? || v.Num? }

  /** `@IsIn(['ASC', 'DESC']) @IsOptional()` */
  predicate IsOptionalDirection(v: Value) { v.Undefined? || v.Null? || v == Str("ASC") || v == Str("DESC") }

  /** The class-validator constraints of PaginatePostDto. */
  predicate IsValid(dto: Entries): (b: bool)
    ensures b ==> forall k :: k in [IdMoreThanField, IdLessThanField, TakeKey] ==> !Get(dto, k).Str? && !Get(dto, k).NaN?
    ensures b ==> Get(dto, OrderKey) !in {Num(0), NaN, Str("")}
  {
    && IsOptionalNumber(Get(dto, IdMoreThanField))
    && IsOptionalNumber(Get(dto, IdLessThanField))
    && IsOptionalDirection(Get(dto, OrderKey))
    && IsOptionalNumber(Get(dto, TakeKey))
  }

  /** A numeric field of an instance is valid exactly when the query's own
      value is, if it has one (the defaults are valid). */
  lemma InstanceNumberField(query: Entries, key: string)
    requires DistinctKeys(query) && key in {IdMoreThanField, IdLessThanField, TakeKey}
    ensures IsOptionalNumber(Get(Instantiate(query), key)) <==>
      (HasKey(query, key) ==> IsOptionalNumber(Get(query, key)))
  {
    InstantiateGet(query, key);
  }

  lemma InstanceOrderField(query: Entries)
    requires DistinctKeys(query)
    ensures IsOptionalDirection(Get(Instantiate(query), OrderKey)) <==>
      (HasKey(query, OrderKey) ==> IsOptionalDirection(Get(query, OrderKey)))
  {
    InstantiateGet(query, OrderKey);
  }

  /** An instance is valid exactly when the query's own values for the four
      fields are: the defaults always pass. */
  lemma InstantiateValid(query: Entries)
    requires DistinctKeys(query)
    ensures IsValid(Instantiate(query)) <==>
      && (HasKey(query, IdMoreThanField) ==> IsOptionalNumber(Get(query, IdMoreThanField)))
      && (HasKey(query, IdLessThanField) ==> IsOptionalNumber(Get(query, IdLessThanField)))
      && (HasKey(query, OrderKey) ==> IsOptionalDirection(Get(query, OrderKey)))
      && (HasKey(query, TakeKey) ==> IsOptionalNumber(Get(query, TakeKey)))
  {
    InstanceNumberField(query, IdMoreThanField);
    InstanceNumberField(query, IdLessThanField);
    InstanceNumberField(query, TakeKey);
    InstanceOrderField(query);
  }

  /** `where__<field>` with no `__` in field is an equality filter on field. */
  lemma DtoFieldParses(field: string, value: Value, mapper: FilterMapper)
    requires NoDoubleUnderscore(field)
    ensures ParseWhereFilter("where" + Separator + field, value, mapper) == Ok(map[field := Equals(value)])
  {
    assert NoDoubleUnderscore("where");
    NoDoubleUnderscoreFree("where");
    NoDoubleUnderscoreFree(field);
    ParseEqualityKey("where", field, value, mapper);
  }

  /** The DTO's `where__id_more_than` has a single `__`, so the composer reads
      it as an equality filter on a field named `id_more_than`. */
  lemma IdMoreThanFieldIsEquality(value: Value, mapper: FilterMapper)
    ensures ParseWhereFilter(IdMoreThanField, value, mapper) == Ok(map["id_more_than" := Equals(value)])
  {
    assert IdMoreThanField == "where" + Separator + "id_more_than";
    assert NoDoubleUnderscore("id_more_than");
    DtoFieldParses("id_more_than", value, mapper);
  }

  /** Likewise `where__id_less_than` is an equality filter on `id_less_than`. */
  lemma IdLessThanFieldIsEquality(value: Value, mapper: FilterMapper)
    ensures ParseWhereFilter(IdLessThanField, value, mapper) == Ok(map["id_less_than" := Equals(value)])
  {
    assert IdLessThanField == "where" + Separator + "id_less_than";
    assert NoDoubleUnderscore("id_less_than");
    DtoFieldParses("id_less_than", value, mapper);
  }
}
