/** ShopTypeServiceImpl.queryList: the shop-type list cached as a store list
    of JSON strings under "show:type:list", filled from the table ordered by
    `sort` on a miss. */
module ShopTypeService {
  import opened Wrappers
  import opened Redis
  import opened Dto
  import opened Exceptions

  datatype ShopType = ShopType(id: int, name: string, icon: string, sort: int)

  const TYPE_LIST_KEY: string := "show:type:list"
  /** The string cached for an empty table, and its lifetime (5 minutes). */
  const EMPTY_LIST_JSON: string := "[]"
  const EMPTY_LIST_TTL_SECONDS: int := 5 * 60
  /** Lifetime of a filled list (30 days). */
  const LIST_TTL_SECONDS: int := 30 * 86400

  /** What queryList returns, the store after it, and whether it queried the table. */
  datatype ListReply = ListReply(response: Response<seq<ShopType>>, store: Store<ShopType>, queried: bool)

  predicate SortedBySort(s: seq<ShopType>) {
    forall i, j :: 0 <= i < j < |s| ==> s[i].sort <= s[j].sort
  }

  /** Insert into a list sorted by `sort`, after every element whose sort is smaller. */
  function InsertBySort(x: ShopType, s: seq<ShopType>): (r: seq<ShopType>)
    requires SortedBySort(s)
    ensures SortedBySort(r)
    ensures multiset(r) == multiset(s) + multiset{x}
    ensures |r| == |s| + 1
    ensures r[0] == x || (|s| > 0 && r[0] == s[0])
  {
    if |s| == 0 then [x]
    else if x.sort <= s[0].sort then [x] + s
    else
      var rest := InsertBySort(x, s[1..]);
      assert s == [s[0]] + s[1..];
      assert s[0].sort <= rest[0].sort;
      assert forall j :: 0 <= j < |rest| ==> rest[0].sort <= rest[j].sort;
      [s[0]] + rest
  }

  /** `query().orderByAsc("sort").list()`: every row of the table, ordered by
      ascending `sort` (the order among equal sorts is the database's choice;
      the model fixes one). */
  function OrderBySort(table: seq<ShopType>): (r: seq<ShopType>)
    ensures SortedBySort(r)
    ensures multiset(r) == multiset(table)
  {
    if |table| == 0 then []
    else
      assert table == [table[0]] + table[1..];
      InsertBySort(table[0], OrderBySort(table[1..]))
  }

  /** JSONUtil.toJsonStr of each element, in order. */
  function EncodeAll(xs: seq<ShopType>): (r: seq<Text<ShopType>>)
    ensures |r| == |xs|
    ensures forall i :: 0 <= i < |xs| ==> r[i] == Plain(xs[i])
  {
    if |xs| == 0 then [] else [Plain(xs[0])] + EncodeAll(xs[1..])
  }

  /** JSONUtil.toBean of each element, in order; the first one that is not a
      ShopType's JSON makes the whole decode fail. */
  function DecodeAll(items: seq<Text<ShopType>>): (r: Option<seq<ShopType>>)
    ensures r.Some? <==> forall i :: 0 <= i < |items| ==> items[i].Plain?
    ensures r.Some? ==> |r.value| == |items| && forall i :: 0 <= i < |items| ==> r.value[i] == items[i].value
  {
    if |items| == 0 then Some([])
    else match (items[0], DecodeAll(items[1..]))
      case (Plain(x), Some(rest)) => Some([x] + rest)
      case (_, _) => None
  }

  /** Decoding undoes encoding. */
  lemma {:induction false} DecodeEncode(xs: seq<ShopType>)
    ensures DecodeAll(EncodeAll(xs)) == Some(xs)
  {
    if |xs| > 0 {
      var e := EncodeAll(xs);
      DecodeEncode(xs[1..]);
      assert e == [Plain(xs[0])] + EncodeAll(xs[1..]);
      assert e[0] == Plain(xs[0]) && e[1..] == EncodeAll(xs[1..]);
      assert DecodeAll(e) == Some([xs[0]] + xs[1..]);
      assert [xs[0]] + xs[1..] == xs;
    }
  }

  /** The miss path of queryList: read the table in `sort` order; cache the
      string "[]" for 5 minutes when it is empty, otherwise append the rows'
      JSON to the list and give the list a 30-day TTL. */
  function LoadFromTable(st: Store<ShopType>, now: int, table: seq<ShopType>): (r: ListReply)
    requires Range(st, now, TYPE_LIST_KEY) == Ok([])
    ensures r.queried
    ensures r.store - {TYPE_LIST_KEY} == st - {TYPE_LIST_KEY}
    ensures |table| == 0 ==>
      r.response == Success(Some([])) &&
      r.store == st[TYPE_LIST_KEY := Entry(Str(Raw(EMPTY_LIST_JSON)), Some(now + EMPTY_LIST_TTL_SECONDS))]
    ensures |table| > 0 ==>
      r.response.Success? && r.response.data.Some? &&
      SortedBySort(r.response.data.value) && multiset(r.response.data.value) == multiset(table) &&
      TYPE_LIST_KEY in r.store &&
      r.store[TYPE_LIST_KEY] == Entry(List(EncodeAll(r.response.data.value)), Some(now + LIST_TTL_SECONDS))
  {
    var types := OrderBySort(table);
    if |types| == 0 then
      ListReply(Success(Some(types)), SetEx(st, now, TYPE_LIST_KEY, Raw(EMPTY_LIST_JSON), EMPTY_LIST_TTL_SECONDS).value, true)
    else
      var pushed := RightPushAll(st, now, TYPE_LIST_KEY, EncodeAll(types));
      assert Range(st, now, TYPE_LIST_KEY).value + EncodeAll(types) == EncodeAll(types);
      assert pushed.Ok? && Range(pushed.value, now, TYPE_LIST_KEY) == Ok(EncodeAll(types));
      var (_, st') := Expire(pushed.value, now, TYPE_LIST_KEY, LIST_TTL_SECONDS);
      ListReply(Success(Some(types)), st', true)
  }

  /** queryList as written.  A non-empty cached list is decoded and returned
      without touching the table or the store, and an empty one sends the
      call to the table (LoadFromTable).  A string under the key makes LRANGE
      fail with WRONGTYPE. */
  function QueryList(st: Store<ShopType>, now: int, table: seq<ShopType>): (r: ListReply)
    ensures r.store - {TYPE_LIST_KEY} == st - {TYPE_LIST_KEY}
    ensures !r.queried ==> r.store == st
    ensures Range(st, now, TYPE_LIST_KEY).Err? ==>
      r == ListReply(Error(StoreFault(WrongType)), st, false)
    ensures Range(st, now, TYPE_LIST_KEY) == Ok([]) ==> r == LoadFromTable(st, now, table)
    ensures var g := Range(st, now, TYPE_LIST_KEY);
      g.Ok? && |g.value| > 0 ==>
        !r.queried &&
        (DecodeAll(g.value).Some? ==> r.response == Success(Some(DecodeAll(g.value).value))) &&
        (DecodeAll(g.value).None? ==> r.response == Error(Undecodable))
  {
    match Range(st, now, TYPE_LIST_KEY)
    case Err(fault) => ListReply(Error(StoreFault(fault)), st, false)
    case Ok(cached) =>
      if |cached| != 0 then
        match DecodeAll(cached)
        case Some(types) => ListReply(Success(Some(types)), st, false)
        case None => ListReply(Error(Undecodable), st, false)
      else LoadFromTable(st, now, table)
  }

  /** Round trip: after a miss has filled the list, every call before the
      30-day TTL runs out returns the same list in the same order, without
      querying the table or changing the store. */
  lemma {:induction false} QueryListRoundTrip(st: Store<ShopType>, now: int, table: seq<ShopType>,
                                              later: int, table': seq<ShopType>)
    requires Range(st, now, TYPE_LIST_KEY) == Ok([]) && |table| > 0
    requires now <= later < now + LIST_TTL_SECONDS
    ensures var r1 := QueryList(st, now, table);
      QueryList(r1.store, later, table') == ListReply(r1.response, r1.store, false)
  {
    var r1 := QueryList(st, now, table);
    var types := r1.response.data.value;
    assert Range(r1.store, later, TYPE_LIST_KEY) == Ok(EncodeAll(types));
    DecodeEncode(types);
  }
}
