// The panel client's conditional fetches: one cached value and entity tag each
// for users and configuration.

module Client {
  import opened Options
  import opened Panel
  import opened Config

  // What a request ends in, retries included.
  datatype Reply<T> = Failed | NotModified | Good(tag: string, body: T) | BadBody

  datatype Cache<T> = Cache(tag: string, value: T)

  function Receive<T>(c: Cache<T>, reply: Reply<T>): (Cache<T>, Option<T>) {
    match reply
    case Failed => (c, None)
    case NotModified => (c, Some(c.value))
    case Good(tag, body) => (Cache(tag, body), Some(body))
    case BadBody => (c, None)
  }

  class PanelClient {
    var userETag: string
    var configETag: string
    var config: Option<NodeConfig>
    var users: seq<User>

    function UserCache(): Cache<seq<User>>
      reads this
    {
      Cache(userETag, users)
    }

    function ConfigCache(): Cache<Option<NodeConfig>>
      reads this
    {
      Cache(configETag, config)
    }

    constructor ()
      ensures UserCache() == Cache("", []) && ConfigCache() == Cache("", None)
    {
      userETag, configETag, config, users := "", "", None, [];
    }

    method GetUsers(reply: Reply<seq<User>>) returns (r: Option<seq<User>>)
      modifies `userETag, `users
      ensures (UserCache(), r) == Receive(old(UserCache()), reply)
    {
      if reply.Failed? {
        return None;
      }
      if reply.NotModified? {
        return Some(users);
      }
      if reply.BadBody? {
        return None;
      }
      userETag := reply.tag;
      users := reply.body;
      return Some(users);
    }

    method GetNodeConfig(reply: Reply<Option<NodeConfig>>) returns (r: Option<Option<NodeConfig>>)
      modifies `configETag, `config
      ensures (ConfigCache(), r) == Receive(old(ConfigCache()), reply)
    {
      if reply.Failed? {
        return None;
      }
      if reply.NotModified? {
        return Some(config);
      }
      if reply.BadBody? {
        return None;
      }
      configETag := reply.tag;
      config := reply.body;
      return Some(config);
    }
  }

  // ---- A panel that follows sections 13.1.2 and 15.4.5 of RFC 9110 ----

  // What the panel serves at one moment.
  datatype Served<T> = Served(tag: string, content: T)

  // The request carried the cached tag. A 304 confirms it; a 200 brings the content.
  ghost predicate Honest<T>(now: Served<T>, sent: string, reply: Reply<T>) {
    match reply
    case NotModified => sent != "" && sent == now.tag
    case Good(tag, body) => body == now.content && (tag == "" || tag == now.tag)
    case _ => true
  }

  // A tag stands for one content, at all times.
  ghost predicate Identifies<T>(contentOf: string -> T, now: Served<T>) {
    now.tag != "" ==> now.content == contentOf(now.tag)
  }

  ghost predicate CacheOk<T>(contentOf: string -> T, c: Cache<T>) {
    c.tag != "" ==> c.value == contentOf(c.tag)
  }

  // The replies and what the panel served, fetch by fetch, against one cache.
  ghost predicate IsHistory<T>(contentOf: string -> T, caches: seq<Cache<T>>, served: seq<Served<T>>,
                               replies: seq<Reply<T>>) {
    && |served| == |replies| && |caches| == |replies| + 1 && CacheOk(contentOf, caches[0])
    && forall i :: 0 <= i < |replies| ==>
         && Identifies(contentOf, served[i]) && Honest(served[i], caches[i].tag, replies[i])
         && caches[i + 1] == Receive(caches[i], replies[i]).0
  }

  lemma ReceiveCurrent<T>(contentOf: string -> T, c: Cache<T>, now: Served<T>, reply: Reply<T>)
    requires CacheOk(contentOf, c) && Identifies(contentOf, now) && Honest(now, c.tag, reply)
    ensures var (c', got) := Receive(c, reply);
      CacheOk(contentOf, c') && (got.Some? ==> got.value == now.content)
  {
  }

  // In any history, a fetch that succeeds returns what the panel serves then, a
  // 304 included.
  lemma {:induction false} FetchesAreCurrent<T>(contentOf: string -> T, caches: seq<Cache<T>>, served: seq<Served<T>>,
                                                replies: seq<Reply<T>>, n: nat)
    requires IsHistory(contentOf, caches, served, replies) && n < |replies|
    ensures CacheOk(contentOf, caches[n])
    ensures var got := Receive(caches[n], replies[n]).1;
      (got.Some? ==> got.value == served[n].content) && (got.None? <==> replies[n].Failed? || replies[n].BadBody?)
  {
    hide Honest, Identifies, CacheOk;
    if n > 0 {
      FetchesAreCurrent(contentOf, caches, served, replies, n - 1);
      ReceiveCurrent(contentOf, caches[n - 1], served[n - 1], replies[n - 1]);
    }
    ReceiveCurrent(contentOf, caches[n], served[n], replies[n]);
  }

  // ---- The cache is the last answer with a body ----

  ghost predicate Follows<T>(caches: seq<Cache<T>>, replies: seq<Reply<T>>) {
    |caches| == |replies| + 1
    && forall i :: 0 <= i < |replies| ==> caches[i + 1] == Receive(caches[i], replies[i]).0
  }

  ghost predicate NoneGood<T>(replies: seq<Reply<T>>, i: nat, n: nat) {
    forall j :: i <= j < n <= |replies| ==> !replies[j].Good?
  }

  lemma {:induction false} CacheKept<T>(caches: seq<Cache<T>>, replies: seq<Reply<T>>, i: nat, n: nat)
    requires Follows(caches, replies) && i <= n <= |replies| && NoneGood(replies, i, n)
    ensures caches[n] == caches[i]
  {
    if i < n {
      CacheKept(caches, replies, i, n - 1);
      assert !replies[n - 1].Good?;
    }
  }

  // Whatever failures, bad bodies and 304s follow, the last 200 that was read stays
  // the cached tag and content; a client that has read none holds what it began with.
  lemma CacheIsLastGood<T>(caches: seq<Cache<T>>, replies: seq<Reply<T>>, i: nat, n: nat)
    requires Follows(caches, replies) && n <= |replies|
    ensures NoneGood(replies, 0, n) ==> caches[n] == caches[0]
    ensures i < n && replies[i].Good? && NoneGood(replies, i + 1, n) ==>
              caches[n] == Cache(replies[i].tag, replies[i].body)
  {
    if NoneGood(replies, 0, n) {
      CacheKept(caches, replies, 0, n);
    }
    if i < n && replies[i].Good? && NoneGood(replies, i + 1, n) {
      CacheKept(caches, replies, i + 1, n);
      assert caches[i + 1] == Receive(caches[i], replies[i]).0;
    }
  }

  // So a panel that still serves that tag may honestly answer 304, and the fetch then
  // returns the content of the last 200.
  lemma NotModifiedReturnsLastGood<T>(contentOf: string -> T, caches: seq<Cache<T>>, served: seq<Served<T>>,
                                      replies: seq<Reply<T>>, i: nat, n: nat)
    requires IsHistory(contentOf, caches, served, replies) && i < n < |replies|
    requires replies[i].Good? && replies[i].tag != "" && NoneGood(replies, i + 1, n)
    ensures served[n].tag == replies[i].tag ==> Honest(served[n], caches[n].tag, NotModified)
    ensures Receive(caches[n], NotModified).1 == Some(replies[i].body)
  {
    CacheIsLastGood(caches, replies, i, n);
  }

}
