/**
 * The sidebar's list logic: which session is highlighted, and how the cached
 * session list and the location change when a create or a delete succeeds.
 * The cache entry is `None` before the list was ever loaded.
 */
module Sidebar {
  import opened Wrappers
  import opened ClientChat

  const ChatPathPrefix: string := "/chat/"
  const HomePath: string := "/"

  /** `` `/chat/${id}` ``. */
  function ChatPath(id: string): (p: string)
    ensures |p| == |ChatPathPrefix| + |id|
    ensures p[..|ChatPathPrefix|] == ChatPathPrefix && p[|ChatPathPrefix|..] == id
  {
    ChatPathPrefix + id
  }

  /** `isActive(id)`: the current path is that session's page. */
  predicate IsActive(pathname: string, id: string) {
    pathname == ChatPath(id)
  }

  /** A path highlights at most one session id. */
  lemma AtMostOneActive(pathname: string, a: string, b: string)
    requires IsActive(pathname, a) && IsActive(pathname, b)
    ensures a == b
  {
    assert a == pathname[|ChatPathPrefix|..] == b;
  }

  /** The home path is no session's page. */
  lemma HomeIsNeverActive(id: string)
    ensures !IsActive(HomePath, id)
  {
    assert |ChatPath(id)| >= 6;
  }

  /** The create updater `[newSession, ...(old || [])]`. */
  function PrependCreated(cached: Option<seq<ClientSession>>, created: ClientSession): (r: seq<ClientSession>)
    ensures |r| == |cached.GetOr([])| + 1
    ensures r[0] == created && r[1..] == cached.GetOr([])
  {
    [created] + cached.GetOr([])
  }

  /** `ss.filter((s) => s.id !== id)`. */
  function WithoutSession(ss: seq<ClientSession>, id: string): (r: seq<ClientSession>)
    ensures forall s :: s in r <==> s in ss && s.id != id
    ensures |r| <= |ss|
  {
    if ss == [] then []
    else (if ss[0].id != id then [ss[0]] else []) + WithoutSession(ss[1..], id)
  }

  /** The delete updater `(old || []).filter((s) => s.id !== sessionId)`. */
  function RemoveDeleted(cached: Option<seq<ClientSession>>, id: string): (r: seq<ClientSession>)
    ensures cached.None? ==> r == []
    ensures forall s :: s in r <==> s in cached.GetOr([]) && s.id != id
  {
    WithoutSession(cached.GetOr([]), id)
  }

  /** Filtering goes segment by segment, so the sessions that stay keep their relative order. */
  lemma {:induction false} WithoutSessionDistributes(a: seq<ClientSession>, b: seq<ClientSession>, id: string)
    ensures WithoutSession(a + b, id) == WithoutSession(a, id) + WithoutSession(b, id)
    decreases |a|
  {
    if a == [] {
      assert a + b == b;
    } else {
      assert (a + b)[0] == a[0];
      assert (a + b)[1..] == a[1..] + b;
      WithoutSessionDistributes(a[1..], b, id);
    }
  }

  /** A list holding no session with the id is left exactly as it was. */
  lemma {:induction false} WithoutAbsentIsIdentity(ss: seq<ClientSession>, id: string)
    requires forall s :: s in ss ==> s.id != id
    ensures WithoutSession(ss, id) == ss
    decreases |ss|
  {
    if ss != [] {
      assert ss[0] in ss;
      assert forall s :: s in ss[1..] ==> s in ss;
      WithoutAbsentIsIdentity(ss[1..], id);
      assert ss == [ss[0]] + ss[1..];
    }
  }

  /** Deleting twice is deleting once. */
  lemma WithoutSessionIdempotent(ss: seq<ClientSession>, id: string)
    ensures WithoutSession(WithoutSession(ss, id), id) == WithoutSession(ss, id)
  {
    WithoutAbsentIsIdentity(WithoutSession(ss, id), id);
  }

  /**
   * Deleting a session right after creating it removes it again; when its id
   * was new, the list is back to what it was.
   */
  lemma CreateThenDelete(cached: Option<seq<ClientSession>>, created: ClientSession)
    ensures RemoveDeleted(Some(PrependCreated(cached, created)), created.id) == RemoveDeleted(cached, created.id)
    ensures (forall s :: s in cached.GetOr([]) ==> s.id != created.id) ==>
              RemoveDeleted(Some(PrependCreated(cached, created)), created.id) == cached.GetOr([])
  {
    var prior := cached.GetOr([]);
    WithoutSessionDistributes([created], prior, created.id);
    if forall s :: s in prior ==> s.id != created.id {
      WithoutAbsentIsIdentity(prior, created.id);
    }
  }

  /** Where the browser goes after a mutation succeeds. */
  datatype Navigation = Stay | NavigateTo(path: string)

  /** What a successful mutation leaves behind: the new cached list and the navigation. */
  datatype Effect = Effect(sessions: seq<ClientSession>, navigation: Navigation)

  /** `createSessionMutation.onSuccess`: the new session heads the list and its page is opened. */
  function OnCreateSuccess(cached: Option<seq<ClientSession>>, created: ClientSession): (e: Effect)
    ensures e.sessions == PrependCreated(cached, created)
    ensures e.navigation.NavigateTo? && IsActive(e.navigation.path, created.id)
  {
    Effect(PrependCreated(cached, created), NavigateTo(ChatPath(created.id)))
  }

  /** `deleteSessionMutation.onSuccess`: the session leaves the list; home is opened only if its page was open. */
  function OnDeleteSuccess(cached: Option<seq<ClientSession>>, id: string, pathname: string): (e: Effect)
    ensures e.sessions == RemoveDeleted(cached, id)
    ensures e.navigation == NavigateTo(HomePath) <==> IsActive(pathname, id)
    ensures e.navigation == Stay <==> !IsActive(pathname, id)
  {
    Effect(RemoveDeleted(cached, id), if IsActive(pathname, id) then NavigateTo(HomePath) else Stay)
  }

  /**
   * Deleting another session while one is open keeps the open page, and the
   * open session stays in the list.
   */
  lemma DeletingOtherSessionStays(cached: Option<seq<ClientSession>>, open: ClientSession, id: string)
    requires open in cached.GetOr([]) && open.id != id
    ensures var e := OnDeleteSuccess(cached, id, ChatPath(open.id));
            e.navigation == Stay && open in e.sessions
  {
    if IsActive(ChatPath(open.id), id) {
      AtMostOneActive(ChatPath(open.id), open.id, id);
    }
  }
}
