/**
 * PostsService: create, update, delete and look up posts in the post table,
 * the seeding loop, and the pagination entry points (the delegating one and
 * the two hand-written variants).
 */
module Posts {
  import opened JsRuntime
  import opened Common

  /** A row of the post table; `authorId` stands for the author relation. */
  datatype Post = Post(id: int, authorId: int, title: string, content: string, likeCount: int, commentCount: int)

  /** The body of a create request (title and content). */
  datatype CreatePostDto = CreatePostDto(title: string, content: string)

  /** The body of an update request: both fields optional. */
  datatype UpdatePostDto = UpdatePostDto(title: Option<string>, content: Option<string>)

  /** What getPostById returns: the row, or a NotFoundException object. */
  datatype PostLookup = Found(post: Post) | NotFoundExceptionValue

  function PostId(p: Post): int { p.id }

  const BasePath := "posts"
  const GeneratedCount := 100
  const GeneratedTitlePrefix := "임의로 생성된 포스트 제목 "
  const GeneratedContentPrefix := "임의로 생성된 포스트 내용 "

  /** The row createPost saves: the author, the dto's fields, zero counters. */
  function NewPost(id: int, authorId: int, dto: CreatePostDto): (p: Post)
    ensures p.likeCount == 0 && p.commentCount == 0
    ensures p.id == id && p.authorId == authorId && p.title == dto.title && p.content == dto.content
  {
    Post(id, authorId, dto.title, dto.content, 0, 0)
  }

  /** `if (s)` on an optional string. */
  predicate IsTruthyString(s: Option<string>) { s.Some? && IsTruthy(Str(s.value)) }

  /** updatePost's change to a row: only truthy title and content overwrite. */
  function Updated(p: Post, dto: UpdatePostDto): (q: Post)
    ensures q.id == p.id && q.authorId == p.authorId
    ensures q.likeCount == p.likeCount && q.commentCount == p.commentCount
    ensures q.title == if IsTruthyString(dto.title) then dto.title.value else p.title
    ensures q.content == if IsTruthyString(dto.content) then dto.content.value else p.content
  {
    var withTitle := if IsTruthyString(dto.title) then p.(title := dto.title.value) else p;
    if IsTruthyString(dto.content) then withTitle.(content := dto.content.value) else withTitle
  }

  /** The dto of the i-th seeded post. */
  function GeneratedDto(i: nat): CreatePostDto {
    CreatePostDto(GeneratedTitlePrefix + NatToString(i), GeneratedContentPrefix + NatToString(i))
  }

  /** The i-th seeded title and content are their prefix followed by i in decimal. */
  lemma GeneratedDtoNumbered(i: nat)
    ensures StartsWith(GeneratedDto(i).title, GeneratedTitlePrefix)
    ensures StringToNumber(GeneratedDto(i).title[|GeneratedTitlePrefix|..]) == Num(i)
    ensures StartsWith(GeneratedDto(i).content, GeneratedContentPrefix)
    ensures StringToNumber(GeneratedDto(i).content[|GeneratedContentPrefix|..]) == Num(i)
  {
    var d := GeneratedDto(i);
    assert d.title[|GeneratedTitlePrefix|..] == NatToString(i);
    assert d.content[|GeneratedContentPrefix|..] == NatToString(i);
    NumberOfIntToString(i);
  }

  /** The rows of the first n seeded posts, ids from start on. */
  function GeneratedPosts(start: int, authorId: int, n: nat): map<int, Post> {
    if n == 0 then map[]
    else GeneratedPosts(start, authorId, n - 1)[start + n - 1 := NewPost(start + n - 1, authorId, GeneratedDto(n - 1))]
  }

  /** The seeded rows use exactly the ids `start .. start+n-1`, and row
      `start+i` is the i-th seeded post. */
  lemma {:induction false} GeneratedPostsRows(start: int, authorId: int, n: nat)
    ensures forall id :: id in GeneratedPosts(start, authorId, n) <==> start <= id < start + n
    ensures forall id :: id in GeneratedPosts(start, authorId, n) ==>
      GeneratedPosts(start, authorId, n)[id] == NewPost(id, authorId, GeneratedDto(id - start))
  {
    if n > 0 {
      GeneratedPostsRows(start, authorId, n - 1);
    }
  }

  /** One more seeded post extends the union by its row. */
  lemma GeneratedPostsStep(base: map<int, Post>, start: int, authorId: int, n: nat)
    ensures base + GeneratedPosts(start, authorId, n + 1)
         == (base + GeneratedPosts(start, authorId, n))[start + n := NewPost(start + n, authorId, GeneratedDto(n))]
  {
  }

  /** Seeded ids start at the next id, so no seeded row replaces an existing one. */
  lemma GeneratedPostsFresh(table: map<int, Post>, nextId: int, authorId: int, n: nat)
    requires forall id :: id in table ==> id < nextId
    ensures table.Keys !! GeneratedPosts(nextId, authorId, n).Keys
  {
    GeneratedPostsRows(nextId, authorId, n);
  }

  /** The seeded posts have pairwise different titles. */
  lemma GeneratedTitlesDistinct(i: nat, j: nat)
    requires i != j
    ensures GeneratedDto(i).title != GeneratedDto(j).title
  {
    GeneratedDtoNumbered(i);
    GeneratedDtoNumbered(j);
  }

  /** The find options pagePaginatePost builds: order by createdAt, take
      `dto.take`, skip `dto.take * (dto.page - 1)`. */
  function PagePostOptions(dto: Entries): (o: FindOptions)
    ensures o.where.None?
    ensures o.order == Some(map["createdAt" := Equals(Get(dto, "order__createdAt"))])
    ensures o.take == Some(Get(dto, "take"))
    ensures Get(dto, "take").Num? && Get(dto, "page").Num? ==>
      o.skip == Some(Num(Get(dto, "take").n * (Get(dto, "page").n - 1)))
    ensures ToNumber(Get(dto, "take")).NaN? || ToNumber(Get(dto, "page")).NaN? ==> o.skip == Some(NaN)
    ensures Get(dto, "take").Null? && ToNumber(Get(dto, "page")).Num? ==> o.skip == Some(Num(0))
  {
    var take := Get(dto, "take");
    FindOptions(None, Some(map["createdAt" := Equals(Get(dto, "order__createdAt"))]), Some(take),
                Some(Mul(take, Sub(Get(dto, "page"), Num(1)))))
  }

  /** The id filter of cursorPaginatePosts: LessThan when that field is truthy,
      else MoreThan when that one is, else none. */
  function CursorIdFilter(dto: Entries): (w: Clauses)
    ensures IsTruthy(Get(dto, LessThanKey)) ==> w == map["id" := Operator("LessThan", Get(dto, LessThanKey))]
    ensures !IsTruthy(Get(dto, LessThanKey)) && IsTruthy(Get(dto, MoreThanKey)) ==>
      w == map["id" := Operator("MoreThan", Get(dto, MoreThanKey))]
    ensures !IsTruthy(Get(dto, LessThanKey)) && !IsTruthy(Get(dto, MoreThanKey)) ==> w == map[]
    ensures w.Keys <= {"id"}
  {
    if IsTruthy(Get(dto, LessThanKey)) then map["id" := Operator("LessThan", Get(dto, LessThanKey))]
    else if IsTruthy(Get(dto, MoreThanKey)) then map["id" := Operator("MoreThan", Get(dto, MoreThanKey))]
    else map[]
  }

  /** The find options cursorPaginatePosts builds (no skip). */
  function CursorPostOptions(dto: Entries): (o: FindOptions)
    ensures o.where == Some(CursorIdFilter(dto))
    ensures o.order == Some(map["createdAt" := Equals(Get(dto, "order__createdAt"))])
    ensures o.take == Some(Get(dto, "take")) && o.skip.None?
  {
    FindOptions(Some(CursorIdFilter(dto)), Some(map["createdAt" := Equals(Get(dto, "order__createdAt"))]),
                Some(Get(dto, "take")), None)
  }

  /** A post table seen as a TypeORM repository. */
  function TableRepository(select: (FindOptions, map<int, Post>) -> seq<Post>,
                           count: (FindOptions, map<int, Post>) -> nat,
                           table: map<int, Post>): (repo: Repository<Post>)
    ensures forall q :: repo.find(q) == select(q, table)
    ensures forall q :: repo.findAndCount(q) == (select(q, table), count(q, table))
    ensures forall p :: repo.idOf(p) == p.id
  {
    Repository((q: FindOptions) => select(q, table),
               (q: FindOptions) => (select(q, table), count(q, table)),
               PostId)
  }

  class PostsService {
    /** The post table, by id. */
    var table: map<int, Post>
    /** The id the next saved post receives. */
    var nextId: int
    /** What a find with the given options returns from a table (TypeORM's query semantics). */
    const select: (FindOptions, map<int, Post>) -> seq<Post>
    /** The count findAndCount returns. In TypeORM it counts all matching rows
        regardless of take and skip; the model leaves it unconstrained. */
    const count: (FindOptions, map<int, Post>) -> nat
    const filterMapper: FilterMapper

    /** Every row is stored under its own id, and ids below nextId are the only ones used. */
    ghost predicate Valid()
      reads this
    {
      forall id :: id in table ==> table[id].id == id && id < nextId
    }

    constructor(select: (FindOptions, map<int, Post>) -> seq<Post>,
                count: (FindOptions, map<int, Post>) -> nat,
                filterMapper: FilterMapper)
      ensures Valid() && table == map[] && nextId == 1
      ensures this.select == select && this.count == count && this.filterMapper == filterMapper
    {
      table := map[];
      nextId := 1;
      this.select := select;
      this.count := count;
      this.filterMapper := filterMapper;
    }

    /** createPost: saves a new row with a fresh id and returns it. */
    method CreatePost(authorId: int, dto: CreatePostDto) returns (p: Post)
      requires Valid()
      modifies this
      ensures Valid()
      ensures p == NewPost(old(nextId), authorId, dto) && p.id !in old(table)
      ensures table == old(table)[p.id := p] && nextId == old(nextId) + 1
    {
      p := NewPost(nextId, authorId, dto);
      table := table[p.id := p];
      nextId := nextId + 1;
    }

    /** generatePost: a hundred creates, the i-th titled and worded with i. */
    method GeneratePost(userId: int)
      requires Valid()
      modifies this
      ensures Valid()
      ensures nextId == old(nextId) + GeneratedCount
      ensures old(table).Keys !! GeneratedPosts(old(nextId), userId, GeneratedCount).Keys
      ensures table == old(table) + GeneratedPosts(old(nextId), userId, GeneratedCount)
    {
      ghost var before, start := table, nextId;
      var i := 0;
      while i < GeneratedCount
        invariant 0 <= i <= GeneratedCount
        invariant Valid()
        invariant nextId == start + i
        invariant table == before + GeneratedPosts(start, userId, i)
      {
        GeneratedPostsStep(before, start, userId, i);
        var p := CreatePost(userId, GeneratedDto(i));
        i := i + 1;
      }
      GeneratedPostsFresh(before, start, userId, i);
    }

    /** getPostById: the row, or (returned, not thrown) a NotFoundException. */
    function GetPostById(id: int): (r: PostLookup)
      reads this
      ensures r.Found? <==> id in table
      ensures r.Found? ==> r.post == table[id]
    {
      if id in table then Found(table[id]) else NotFoundExceptionValue
    }

    /** updatePost */
    method UpdatePost(postId: int, dto: UpdatePostDto) returns (r: Result<Post>)
      requires Valid()
      modifies this
      ensures Valid() && nextId == old(nextId)
      ensures postId !in old(table) ==> r == Err(NotFound) && table == old(table)
      ensures postId in old(table) ==>
        r == Ok(Updated(old(table)[postId], dto)) && table == old(table)[postId := r.value]
    {
      if postId !in table {
        return Err(NotFound);
      }
      var post := table[postId];
      if IsTruthyString(dto.title) {
        post := post.(title := dto.title.value);
      }
      if IsTruthyString(dto.content) {
        post := post.(content := dto.content.value);
      }
      table := table[post.id := post];
      r := Ok(post);
    }

    /** deletePost */
    method DeletePost(postId: int) returns (r: Result<int>)
      requires Valid()
      modifies this
      ensures Valid() && nextId == old(nextId)
      ensures postId !in old(table) ==> r == Err(NotFound) && table == old(table)
      ensures postId in old(table) ==> r == Ok(postId) && table == old(table) - {postId}
    {
      if postId !in table {
        return Err(NotFound);
      }
      table := table - {postId};
      r := Ok(postId);
    }

    /** pagePaginatePost */
    function PagePaginatePost(dto: Entries): (page: Page<Post>)
      reads this
      ensures page.OffsetPage?
      ensures page.data == select(PagePostOptions(dto), table)
      ensures page.total == count(PagePostOptions(dto), table)
    {
      OffsetPage(select(PagePostOptions(dto), table), count(PagePostOptions(dto), table))
    }

    /** cursorPaginatePosts: the same envelope rule as CommonService, on
        its own find options, with base path 'posts'. */
    method CursorPaginatePosts(dto: Entries) returns (r: Result<Page<Post>>)
      ensures r == CursorEnvelope(dto, select(CursorPostOptions(dto), table), PostId, BasePath)
      ensures r.Err? <==> |select(CursorPostOptions(dto), table)| == 0
    {
      var where: Clauses := map[];
      if IsTruthy(Get(dto, LessThanKey)) {
        where := where["id" := Operator("LessThan", Get(dto, LessThanKey))];
      } else if IsTruthy(Get(dto, MoreThanKey)) {
        where := where["id" := Operator("MoreThan", Get(dto, MoreThanKey))];
      }
      var options := FindOptions(Some(where), Some(map["createdAt" := Equals(Get(dto, "order__createdAt"))]),
                                 Some(Get(dto, "take")), None);
      var posts := select(options, table);
      if |posts| == 0 {
        return Err(TypeError);
      }
      var lastId := posts[|posts| - 1].id;
      var query := BuildNextQuery(dto, lastId);
      r := Ok(CursorPage(posts, lastId, |posts|, Link(BasePath, query)));
    }

    /** paginatePosts: delegates to CommonService with no overrides and path 'posts'. */
    method PaginatePosts(dto: Entries) returns (r: Result<Page<Post>>)
      ensures r == Paginated(dto, TableRepository(select, count, table), filterMapper, NoOptions, BasePath)
    {
      r := Paginate(dto, TableRepository(select, count, table), filterMapper, NoOptions, BasePath);
    }
  }

  /** The delegating entry point never applies overrides: the store sees
      exactly the composed options. */
  lemma PaginatePostsUsesComposedOptions(dto: Entries, select: (FindOptions, map<int, Post>) -> seq<Post>,
                                         count: (FindOptions, map<int, Post>) -> nat,
                                         table: map<int, Post>, mapper: FilterMapper)
    requires Composed(dto, mapper).Ok? && !IsTruthy(Get(dto, "page"))
    ensures Paginated(dto, TableRepository(select, count, table), mapper, NoOptions, BasePath)
         == CursorEnvelope(dto, select(Composed(dto, mapper).value, table), PostId, BasePath)
  {
    var options := Composed(dto, mapper).value;
    assert Merge(options, NoOptions) == options;
  }
}
