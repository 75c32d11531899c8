/**
 * app/dashboard/page.tsx: the `createNewArticle` server action (next id,
 * insert, redirect to the editor) and the `AdminPage` gate and header.
 */
module Dashboard {
  import opened Wrappers
  import opened Roles
  import opened Backend
  import opened AuthServer
  import opened Decimal

  /** `from('articles').select('id').order('id', { ascending: false }).limit(1).single()`. */
  datatype TopIdFetch = TopRow(id: int) | TopFailed(code: string) | TopThrew

  /** The row the action inserts. */
  datatype NewArticle = NewArticle(id: int, title: string)

  /** How the action ends: a plain `return`, a `redirect(...)`, or an exception it does not catch. */
  datatype ActionResult = NoOp | Redirected(location: string) | Raised

  /** The insert the action issued, if any, and how it ended. */
  datatype Action = Action(inserted: Option<NewArticle>, result: ActionResult)

  const DefaultTitle: string := "제목을 입력해주세요"
  const EditorPrefix: string := "/dashboard/editor/"
  const HomePath: string := "/"

  /** The largest of a non-empty list of ids. */
  function Max(ids: seq<int>): (m: int)
    requires |ids| > 0
    ensures m in ids
    ensures forall i :: 0 <= i < |ids| ==> ids[i] <= m
  {
    if |ids| == 1 then ids[0]
    else
      var rest := Max(ids[1..]);
      if ids[0] >= rest then ids[0] else rest
  }

  /** What the top-id query answers for a table holding `ids`: the largest, or "no row". */
  function LatestArticle(ids: seq<int>): (f: TopIdFetch)
    ensures |ids| == 0 <==> f == TopFailed(NotFoundCode)
    ensures |ids| > 0 ==> f.TopRow? && f.id in ids && forall i :: 0 <= i < |ids| ==> ids[i] <= f.id
  {
    if |ids| == 0 then TopFailed(NotFoundCode) else TopRow(Max(ids))
  }

  /** `data ? data.id + 1 : 1`, or nothing when the query failed otherwise than with "no row". */
  function NextArticleId(fetch: TopIdFetch): (r: Option<int>)
    ensures r.None? <==> fetch.TopThrew? || (fetch.TopFailed? && fetch.code != NotFoundCode)
    ensures fetch.TopRow? ==> r == Some(fetch.id + 1)
    ensures fetch == TopFailed(NotFoundCode) ==> r == Some(1)
  {
    match fetch
    case TopRow(id) => Some(id + 1)
    case TopFailed(code) => if code == NotFoundCode then Some(1) else None
    case TopThrew => None
  }

  /** Whatever the table holds, the id the action picks is fresh: above every existing id. */
  lemma NextIdIsFresh(ids: seq<int>)
    ensures NextArticleId(LatestArticle(ids)).Some?
    ensures var n := NextArticleId(LatestArticle(ids)).value;
            (forall i :: 0 <= i < |ids| ==> ids[i] < n) && n !in ids
    ensures |ids| == 0 ==> NextArticleId(LatestArticle(ids)) == Some(1)
  {
  }

  /** The editor route for an article id. */
  function EditorPath(id: int): string {
    EditorPrefix + IntToString(id)
  }

  /** `createNewArticle()`: `fetch` is the top-id query, `insert` the article insert. */
  function CreateNewArticle(fetch: TopIdFetch, insert: Insert): (a: Action)
    ensures NextArticleId(fetch).None? ==> a.inserted.None? && !a.result.Redirected?
    ensures fetch.TopFailed? && fetch.code != NotFoundCode ==> a == Action(None, NoOp)
    ensures fetch.TopThrew? ==> a == Action(None, Raised)
    ensures NextArticleId(fetch).Some? ==> a.inserted == Some(NewArticle(NextArticleId(fetch).value, DefaultTitle))
    ensures a.result.Redirected? <==> a.inserted.Some? && insert == InsertOk
    ensures a.result.Redirected? ==> a.result.location == EditorPath(a.inserted.value.id)
    ensures a.result == Raised <==> fetch.TopThrew? || (a.inserted.Some? && insert == InsertThrew)
  {
    match fetch
    case TopThrew => Action(None, Raised)
    case TopFailed(code) =>
      if code != NotFoundCode then Action(None, NoOp)
      else InsertAndRedirect(1, insert)
    case TopRow(id) => InsertAndRedirect(id + 1, insert)
  }

  /** Lines 34-46 once the new id is known. */
  function InsertAndRedirect(newId: int, insert: Insert): (a: Action)
    ensures a.inserted == Some(NewArticle(newId, DefaultTitle))
    ensures a.result.Redirected? <==> insert == InsertOk
    ensures a.result.Redirected? ==> a.result.location == EditorPath(newId)
    ensures a.result == Raised <==> insert == InsertThrew
  {
    var row := NewArticle(newId, DefaultTitle);
    match insert
    case InsertOk => Action(Some(row), Redirected(EditorPath(newId)))
    case InsertFailed => Action(Some(row), NoOp)
    case InsertThrew => Action(Some(row), Raised)
  }

  /**
   * End to end over a table holding `ids`: after a successful insert the
   * action redirects to an editor route whose last segment reads back as an
   * id above every existing one.
   */
  lemma {:induction false} RedirectNamesFreshId(ids: seq<int>)
    ensures var a := CreateNewArticle(LatestArticle(ids), InsertOk);
            && a.result.Redirected?
            && |a.result.location| > |EditorPrefix|
            && a.result.location[..|EditorPrefix|] == EditorPrefix
            && var tail := a.result.location[|EditorPrefix|..];
               (tail[0] == '-' ==> AllDigits(tail[1..])) && (tail[0] != '-' ==> AllDigits(tail))
               && (forall i :: 0 <= i < |ids| ==> ids[i] < ParseInt(tail))
  {
    NextIdIsFresh(ids);
    var n := NextArticleId(LatestArticle(ids)).value;
    var a := CreateNewArticle(LatestArticle(ids), InsertOk);
    assert a.result.location == EditorPrefix + IntToString(n);
    assert a.result.location[|EditorPrefix|..] == IntToString(n);
    IntRoundTrip(n);
  }

  /** A row of the `articles` list. */
  datatype Article = Article(id: string, title: Option<string>, status: Option<bool>)

  /** `from('articles').select('id, title, status').order('created_at', { ascending: false })`. */
  datatype ArticlesQuery = ArticleRows(data: Option<seq<Article>>) | ArticlesFailed(message: string)

  /** The body wrapped in `ProtectedLayout`. */
  datatype DashContent =
    | DashError(message: string)
    | DashView(email: Option<string>, roleLabel: Role, showUsersLink: bool, articles: seq<Article>)

  /** `AdminPage()`: a redirect, or a `ProtectedLayout` with a required role around some content. */
  datatype DashPage = GoTo(location: string) | DashLayout(requiredRole: UserRole, content: DashContent)

  /** `AdminPage()`: `session` is `getUser()`, `query` the article list. */
  function AdminPage(session: ServerSession, query: ArticlesQuery): (p: DashPage)
    ensures p == GoTo(HomePath) <==> session.user.None?
    ensures p.DashLayout? ==> p.requiredRole.None?
    ensures p.DashLayout? && p.content.DashView? ==>
              && (p.content.showUsersLink <==> IsAdmin(session.role))
              && p.content.roleLabel == session.role.GetOr(Viewer)
    ensures p.DashLayout? && query.ArticlesFailed? ==> p.content == DashError(query.message)
    ensures session.user.Some? && query.ArticlesFailed? ==> p == DashLayout(None, DashError(query.message))
    ensures session.user.Some? && query.ArticleRows? ==>
              p == DashLayout(None, DashView(session.user.value.email, session.role.GetOr(Viewer),
                                             IsAdmin(session.role), query.data.GetOr([])))
  {
    if session.user.None? then GoTo(HomePath)
    else
      match query
      case ArticlesFailed(message) => DashLayout(None, DashError(message))
      case ArticleRows(data) =>
        DashLayout(None, DashView(session.user.value.email, session.role.GetOr(Viewer), IsAdmin(session.role), data.GetOr([])))
  }

  /** Through `getUser`, the user-management link appears only for a signed-in admin. */
  lemma UsersLinkOnlyForAdmins(auth: Call<AuthReply>, lookup: Lookup, insert: Insert, query: ArticlesQuery)
    ensures var p := AdminPage(GetUser(auth, lookup, insert), query);
            p.DashLayout? && p.content.DashView? && p.content.showUsersLink ==>
              SignedIn(auth) && FoundNamed(lookup) && lookup.stored.role == Admin
  {
  }

  /** Conversely, a signed-in stored admin whose article query succeeds sees the link. */
  lemma UsersLinkShownToAdmins(auth: Call<AuthReply>, lookup: Lookup, insert: Insert, data: Option<seq<Article>>)
    requires SignedIn(auth) && FoundNamed(lookup) && lookup.stored.role == Admin
    ensures var p := AdminPage(GetUser(auth, lookup, insert), ArticleRows(data));
            p.DashLayout? && p.content.DashView? && p.content.showUsersLink
  {
  }
}
