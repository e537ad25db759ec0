/** The key-value store the cache lives in, seen through the handful of
    commands the cache code issues: GET, SET (with and without EX), SET NX EX,
    DEL, EXPIRE, LRANGE 0 -1 and RPUSH.  Time is an explicit number of seconds;
    an entry whose expiry instant has been reached reads as absent. */
module Redis {
  import opened Wrappers

  /** The units callers pass as a java.util.concurrent.TimeUnit. */
  datatype TimeUnit = Seconds | Minutes | Hours | Days

  /** TimeUnit.toSeconds for whole units. */
  function ToSeconds(time: int, unit: TimeUnit): (s: int)
    ensures unit == Seconds ==> s == time
    ensures unit == Minutes ==> s == 60 * time
    ensures unit == Hours ==> s == 3600 * time
    ensures unit == Days ==> s == 86400 * time
    ensures (s > 0) <==> (time > 0)
    ensures time >= 0 ==> s >= time
  {
    match unit
    case Seconds => time
    case Minutes => time * 60
    case Hours => time * 3600
    case Days => time * 86400
  }

  /** The string stored under a key, kept abstract: a literal the code writes
      itself ("" for the null marker, "1" for a lock, "[]"), the JSON of a
      value, or the JSON of a logical-expiration envelope {data, expireTime}. */
  datatype Text<V> =
    | Raw(chars: string)
    | Plain(value: V)
    | Envelope(data: V, expireAt: int)

  /** The characters Hutool's CharUtil.isBlankChar accepts: Java whitespace,
      Unicode space separators and a few invisible characters. */
  function IsBlankChar(c: char): (b: bool)
    ensures c == ' ' || c == '\t' || c == '\n' || c == '\r' || c == '\U{000B}' || c == '\U{000C}' ==> b
    ensures ('0' <= c <= '9') || ('a' <= c <= 'z') || ('A' <= c <= 'Z') || c == '{' || c == '[' || c == '"' ==> !b
  {
    c == '\t' || c == '\n' || c == '\U{000B}' || c == '\U{000C}' || c == '\r'
    || ('\U{001C}' <= c <= '\U{001F}') || c == ' ' || c == '\U{00A0}'
    || c == '\U{1680}' || c == '\U{180E}' || ('\U{2000}' <= c <= '\U{200A}')
    || c == '\U{2028}' || c == '\U{2029}' || c == '\U{202A}' || c == '\U{202F}'
    || c == '\U{205F}' || c == '\U{3000}' || c == '\U{3164}' || c == '\U{2800}'
    || c == '\U{FEFF}' || c == '\0'
  }

  /** The ASCII whitespace characters, all of which IsBlankChar accepts. */
  const ASCII_BLANKS: set<char> := {' ', '\t', '\n', '\r', '\U{000B}', '\U{000C}'}

  /** StrUtil.isBlank on a present string. */
  function IsBlank(s: string): (b: bool)
    ensures |s| == 0 ==> b
    ensures |s| > 0 ==> (b <==> IsBlankChar(s[0]) && IsBlank(s[1..]))
  {
    forall i :: 0 <= i < |s| ==> IsBlankChar(s[i])
  }

  /** A stored string that StrUtil.isBlank accepts: the empty string and any
      run of whitespace; serialised JSON never is. */
  function BlankText<V>(t: Text<V>): (b: bool)
    ensures t.Plain? || t.Envelope? ==> !b
    ensures t == Raw("") ==> b
    ensures t == Raw("1") || t == Raw("[]") ==> !b
    ensures (t.Raw? && forall i :: 0 <= i < |t.chars| ==> t.chars[i] in ASCII_BLANKS) ==> b
  {
    t.Raw? && IsBlank(t.chars)
  }

  /** Redis values come in two kinds here: strings and lists of strings. */
  datatype Value<V> = Str(text: Text<V>) | List(items: seq<Text<V>>)

  /** A stored value with its absolute expiry instant, if it has a TTL. */
  datatype Entry<V> = Entry(value: Value<V>, expiresAt: Option<int>)

  type Store<V> = map<string, Entry<V>>

  /** Errors Redis (or the client library in front of it) raises. */
  datatype Fault =
    | WrongType          // a string command on a list or the other way round
    | InvalidExpireTime  // an expiry of zero or fewer seconds
    | EmptyPush          // RPUSH with no values

  predicate Live<V>(e: Entry<V>, now: int) {
    e.expiresAt.None? || now < e.expiresAt.value
  }

  /** What a client observes under `key` at time `now`. */
  function Lookup<V>(st: Store<V>, now: int, key: string): (r: Option<Value<V>>)
    ensures r.Some? <==> key in st && Live(st[key], now)
    ensures r.Some? ==> r.value == st[key].value
  {
    if key in st && Live(st[key], now) then Some(st[key].value) else None
  }

  /** GET: the string under the key, null when absent, WRONGTYPE on a list. */
  function Get<V>(st: Store<V>, now: int, key: string): (r: Result<Option<Text<V>>, Fault>)
    ensures r == Ok(None) <==> Lookup(st, now, key).None?
    ensures r.Ok? && r.value.Some? <==> Lookup(st, now, key).Some? && Lookup(st, now, key).value.Str?
    ensures r.Ok? && r.value.Some? ==> Lookup(st, now, key) == Some(Str(r.value.value))
    ensures r.Err? <==> Lookup(st, now, key).Some? && Lookup(st, now, key).value.List?
  {
    match Lookup(st, now, key)
    case None => Ok(None)
    case Some(Str(t)) => Ok(Some(t))
    case Some(List(_)) => Err(WrongType)
  }

  /** SET without options: overwrite, whatever the old kind, and drop any TTL. */
  function SetPersistent<V>(st: Store<V>, key: string, t: Text<V>): (st': Store<V>)
    ensures forall later :: Get(st', later, key) == Ok(Some(t))
    ensures st' - {key} == st - {key}
  {
    st[key := Entry(Str(t), None)]
  }

  /** SET with EX: the string is readable for exactly `seconds` seconds. */
  function SetEx<V>(st: Store<V>, now: int, key: string, t: Text<V>, seconds: int)
    : (r: Result<Store<V>, Fault>)
    ensures r.Err? <==> seconds <= 0
    ensures r.Err? ==> r.error == InvalidExpireTime
    ensures r.Ok? ==> r.value - {key} == st - {key}
    ensures r.Ok? ==> forall later :: now <= later ==>
      Get(r.value, later, key) == (if later < now + seconds then Ok(Some(t)) else Ok(None))
  {
    if seconds <= 0 then Err(InvalidExpireTime)
    else Ok(st[key := Entry(Str(t), Some(now + seconds))])
  }

  /** SET NX EX: writes only when nothing live is stored under the key, and
      reports whether it wrote. */
  function SetIfAbsent<V>(st: Store<V>, now: int, key: string, t: Text<V>, seconds: int)
    : (r: (bool, Store<V>))
    requires seconds > 0
    ensures r.0 <==> Lookup(st, now, key).None?
    ensures r.0 ==> Get(r.1, now, key) == Ok(Some(t)) && r.1[key].expiresAt == Some(now + seconds)
    ensures !r.0 ==> r.1 == st
    ensures r.1 - {key} == st - {key}
  {
    if Lookup(st, now, key).None? then (true, st[key := Entry(Str(t), Some(now + seconds))])
    else (false, st)
  }

  /** DEL: afterwards nothing is stored under the key, at any time. */
  function Delete<V>(st: Store<V>, key: string): (st': Store<V>)
    ensures forall later :: Lookup(st', later, key).None?
    ensures st' - {key} == st - {key}
  {
    st - {key}
  }

  /** EXPIRE: reports whether the key was live; a live key gets the new TTL,
      or is deleted when the TTL is not positive. */
  function Expire<V>(st: Store<V>, now: int, key: string, seconds: int): (r: (bool, Store<V>))
    ensures r.0 <==> Lookup(st, now, key).Some?
    ensures !r.0 ==> r.1 == st
    ensures r.0 && seconds > 0 ==> key in r.1 && r.1[key] == Entry(st[key].value, Some(now + seconds))
    ensures r.0 && seconds <= 0 ==> Lookup(r.1, now, key).None?
    ensures r.1 - {key} == st - {key}
  {
    if Lookup(st, now, key).None? then (false, st)
    else if seconds <= 0 then (true, st - {key})
    else (true, st[key := st[key].(expiresAt := Some(now + seconds))])
  }

  /** LRANGE key 0 -1: the whole list, empty when absent, WRONGTYPE on a string. */
  function Range<V>(st: Store<V>, now: int, key: string): (r: Result<seq<Text<V>>, Fault>)
    ensures r == Ok([]) <== Lookup(st, now, key).None?
    ensures Lookup(st, now, key).Some? && Lookup(st, now, key).value.List? ==>
      r == Ok(Lookup(st, now, key).value.items)
    ensures r.Err? <==> Lookup(st, now, key).Some? && Lookup(st, now, key).value.Str?
  {
    match Lookup(st, now, key)
    case None => Ok([])
    case Some(List(xs)) => Ok(xs)
    case Some(Str(_)) => Err(WrongType)
  }

  /** RPUSH key v1 .. vn: appends at the tail, creating the list (with no TTL)
      when the key is absent and keeping the TTL of a live list. */
  function RightPushAll<V>(st: Store<V>, now: int, key: string, xs: seq<Text<V>>)
    : (r: Result<Store<V>, Fault>)
    ensures r.Ok? <==> |xs| > 0 && Range(st, now, key).Ok?
    ensures r.Ok? ==> Range(r.value, now, key) == Ok(Range(st, now, key).value + xs)
    ensures r.Ok? ==> r.value - {key} == st - {key}
    ensures r.Ok? && Lookup(st, now, key).None? ==> r.value[key].expiresAt.None?
  {
    if |xs| == 0 then Err(EmptyPush)
    else match Lookup(st, now, key)
      case None => assert [] + xs == xs; Ok(st[key := Entry(List(xs), None)])
      case Some(List(ys)) => Ok(st[key := Entry(List(ys + xs), st[key].expiresAt)])
      case Some(Str(_)) => Err(WrongType)
  }
}
