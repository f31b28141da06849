/** Normalisation of a successful recent-search response: the `includes.users`
    side list is turned into an `author_id -> username` map and joined into
    one row per tweet, in response order. JSON values are modelled only as far
    as the join reads them; every `x.get("k")` is an `Option`. */
module Normalize {
  import opened Wrappers

  /** `public_metrics` of a tweet: each count may be absent. */
  datatype Metrics = Metrics(
    retweetCount: Option<int>,
    replyCount: Option<int>,
    likeCount: Option<int>,
    quoteCount: Option<int>)

  datatype Tweet = Tweet(
    id: Option<string>,
    text: Option<string>,
    authorId: Option<string>,
    createdAt: Option<string>,
    publicMetrics: Option<Metrics>)

  datatype User = User(id: Option<string>, username: Option<string>)

  /** The `includes` object; its `users` key may be absent. */
  datatype Includes = Includes(users: Option<seq<User>>)

  /** A decoded response body; `data` and `includes` may be absent. */
  datatype Body = Body(data: Option<seq<Tweet>>, includes: Option<Includes>)

  /** One row of the resulting table. */
  datatype Row = Row(
    id: Option<string>,
    text: Option<string>,
    authorId: Option<string>,
    authorUsername: Option<string>,
    createdAt: Option<string>,
    retweetCount: Option<int>,
    replyCount: Option<int>,
    likeCount: Option<int>,
    quoteCount: Option<int>)

  /** The value `{}` stands for: every count absent. */
  const NoMetrics := Metrics(None, None, None, None)

  /** `data.get("data", [])`. */
  function TweetsOf(b: Body): seq<Tweet> {
    b.data.GetOr([])
  }

  /** `data.get("includes", {}).get("users", [])`. */
  function UsersOf(b: Body): seq<User> {
    match b.includes
    case None => []
    case Some(inc) => inc.users.GetOr([])
  }

  /** `t.get("public_metrics", {}) or {}`. */
  function MetricsOf(t: Tweet): Metrics {
    t.publicMetrics.GetOr(NoMetrics)
  }

  /** Python's `dict.get(k)`: the value under k, or None when k is missing. */
  function Lookup<K, V>(m: map<K, Option<V>>, k: K): Option<V> {
    if k in m then m[k] else None
  }

  /** `{u.get("id"): u.get("username") for u in users}`: entries are inserted in
      list order, so a later user with the same id overwrites an earlier one.
      A user without an id is stored under the key None. */
  function UserMap(users: seq<User>): (m: map<Option<string>, Option<string>>)
    ensures forall k :: k in m <==> exists j :: 0 <= j < |users| && users[j].id == k
  {
    if users == [] then map[]
    else
      var last := users[|users| - 1];
      var prefix := users[..|users| - 1];
      var m := UserMap(prefix)[last.id := last.username];
      assert forall j :: 0 <= j < |prefix| ==> prefix[j] == users[j];
      m
  }

  /** The index of the last user whose id equals `id`, if any. */
  function LastIndexWithId(users: seq<User>, id: Option<string>): (r: Option<nat>)
    ensures r.None? <==> forall j :: 0 <= j < |users| ==> users[j].id != id
    ensures r.Some? ==> r.value < |users| && users[r.value].id == id
    ensures r.Some? ==> forall j :: r.value < j < |users| ==> users[j].id != id
  {
    if users == [] then None
    else if users[|users| - 1].id == id then Some(|users| - 1)
    else LastIndexWithId(users[..|users| - 1], id)
  }

  /** The username the join should find for `id`: that of the last user with
      this id, or None when no user has it. */
  function AuthorName(users: seq<User>, id: Option<string>): Option<string> {
    match LastIndexWithId(users, id)
    case None => None
    case Some(j) => users[j].username
  }

  /** Looking an id up in the map built from `users` finds the username of the
      last user carrying that id, and None when there is none. */
  lemma {:induction false} UserMapLookup(users: seq<User>, id: Option<string>)
    ensures Lookup(UserMap(users), id) == AuthorName(users, id)
  {
    if users != [] {
      var last := users[|users| - 1];
      var prefix := users[..|users| - 1];
      if last.id != id {
        UserMapLookup(prefix, id);
      }
    }
  }

  /** The row the join produces for one tweet. */
  function RowOf(t: Tweet, userMap: map<Option<string>, Option<string>>): Row {
    var m := MetricsOf(t);
    Row(t.id, t.text, t.authorId, Lookup(userMap, t.authorId), t.createdAt,
        m.retweetCount, m.replyCount, m.likeCount, m.quoteCount)
  }

  /** The rows of a response: one per tweet, in response order, each carrying
      the tweet's own fields, the name of its author (None when no user in the
      side list has that id) and the counts from `public_metrics` (None when
      absent). */
  function NormalizedRows(b: Body): (rows: seq<Row>)
    ensures |rows| == |TweetsOf(b)|
    ensures forall i :: 0 <= i < |rows| ==>
      var t, m := TweetsOf(b)[i], MetricsOf(TweetsOf(b)[i]);
      rows[i] == Row(t.id, t.text, t.authorId, AuthorName(UsersOf(b), t.authorId), t.createdAt,
                     m.retweetCount, m.replyCount, m.likeCount, m.quoteCount)
  {
    var tweets, userMap := TweetsOf(b), UserMap(UsersOf(b));
    var rows := seq(|tweets|, i requires 0 <= i < |tweets| => RowOf(tweets[i], userMap));
    forall i | 0 <= i < |tweets| ensures rows[i].authorUsername == AuthorName(UsersOf(b), tweets[i].authorId) {
      UserMapLookup(UsersOf(b), tweets[i].authorId);
    }
    rows
  }

  /** A tweet whose author id matches no user still gets its row, with its
      own id and no username: a missing join does not fail the batch. */
  lemma MissingAuthorLeavesNone(b: Body, i: nat)
    requires i < |TweetsOf(b)|
    requires forall j :: 0 <= j < |UsersOf(b)| ==> UsersOf(b)[j].id != TweetsOf(b)[i].authorId
    ensures |NormalizedRows(b)| == |TweetsOf(b)|
    ensures NormalizedRows(b)[i].authorUsername.None?
    ensures NormalizedRows(b)[i].id == TweetsOf(b)[i].id
  {
  }

  /** The loop of `fetch_x_trends` that appends one row per tweet. */
  method BuildRows(b: Body) returns (rows: seq<Row>)
    ensures rows == NormalizedRows(b)
  {
    var tweets := TweetsOf(b);
    var userMap := UserMap(UsersOf(b));
    rows := [];
    for i := 0 to |tweets|
      invariant |rows| == i
      invariant forall k :: 0 <= k < i ==> rows[k] == RowOf(tweets[k], userMap)
    {
      var t := tweets[i];
      var metrics := MetricsOf(t);
      rows := rows + [Row(t.id, t.text, t.authorId, Lookup(userMap, t.authorId), t.createdAt,
                          metrics.retweetCount, metrics.replyCount, metrics.likeCount, metrics.quoteCount)];
    }
    forall k | 0 <= k < |tweets| ensures rows[k] == NormalizedRows(b)[k] {
      UserMapLookup(UsersOf(b), tweets[k].authorId);
    }
  }
}
