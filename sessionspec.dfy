/**
 * What each operation of a session computes, as functions of what it reads
 * of the session (its Conn), the server (a Network) and the foreign
 * libraries (Libs). The methods of Ming800.Session are proved equal to these.
 *
 * Where session.go would panic (an unchecked index, an unchecked regular
 * expression match, a nil URL) the function has a precondition, gathered
 * per operation into a "Safe" predicate; such a predicate speaks only of
 * the pages the operation actually fetches.
 */
module SessionSpec {
  import opened Wrappers
  import opened GoStrings
  import opened Collecting
  import opened Html
  import opened Records
  import opened Web
  import opened Parsers

  /** What an operation reads of a session: login flag, server URL, endpoint URLs, cookie jar. */
  datatype Conn = Conn(loggedIn: bool, base: string, urls: map<string, string>, jar: Jar)

  /**
   * http.NewRequest(verb, url), client.Do (which sends the jar's cookies),
   * then ioutil.ReadAll of the body.
   */
  function Fetch(conn: Conn, net: Network, libs: Libs, verb: string, url: string, form: map<string, string>)
    : (r: Result<string, Error>)
    ensures !libs.validUrl(url) ==> r == Err(BadUrl(url))
    ensures var resp := net(Request(verb, url, form, conn.jar));
      && (r.Ok? <==> libs.validUrl(url) && resp.Ok?)
      && (libs.validUrl(url) && resp.Err? ==> r == Err(Transport(resp.error)))
      && (r.Ok? ==> r.value == resp.value.body)
  {
    if !libs.validUrl(url) then Err(BadUrl(url))
    else match net(Request(verb, url, form, conn.jar))
      case Err(cause) => Err(Transport(cause))
      case Ok(resp) => Ok(resp.body)
  }

  function Get(conn: Conn, net: Network, libs: Libs, url: string): Result<string, Error> {
    Fetch(conn, net, libs, "GET", url, map[])
  }

  // ---------------------------------------------------------------------------
  // Login and Logout
  // ---------------------------------------------------------------------------

  /** The login POST: sent straight through the transport, so without the jar's cookies. */
  function LoginRequest(conn: Conn, user: string, company: string, password: string): Request
  {
    Request("POST", Lookup(conn.urls, "login"), LoginForm(user, company, password), map[])
  }

  /**
   * Login: the cookies to install, or why the login failed. It succeeds
   * exactly when the request can be made, the round trip succeeds and the
   * response passes LoginVerdict; the cookies installed are then the single
   * session cookie.
   */
  function LoginOutcome(conn: Conn, net: Network, libs: Libs, user: string, company: string, password: string)
    : (r: Result<seq<Cookie>, Error>)
    ensures var req := LoginRequest(conn, user, company, password);
      r.Ok? <==> libs.validUrl(req.url) && net(req).Ok? && LoginVerdict(net(req).value).None?
    ensures r.Ok? ==> |r.value| == 1 && r.value[0].name == SessionCookieName
    ensures r.Ok? ==> r.value == net(LoginRequest(conn, user, company, password)).value.cookies
    ensures var req := LoginRequest(conn, user, company, password);
      && (!libs.validUrl(req.url) ==> r == Err(BadUrl(req.url)))
      && (libs.validUrl(req.url) && net(req).Err? ==> r == Err(Transport(net(req).error)))
      && (libs.validUrl(req.url) && net(req).Ok? && LoginVerdict(net(req).value).Some? ==>
            r == Err(LoginVerdict(net(req).value).value))
  {
    var req := LoginRequest(conn, user, company, password);
    if !libs.validUrl(req.url) then Err(BadUrl(req.url))
    else match net(req)
      case Err(cause) => Err(Transport(cause))
      case Ok(resp) =>
        match LoginVerdict(resp)
        case Some(e) => Err(e)
        case None => Ok(resp.cookies)
  }

  /** A response that does not redirect to the main page fails the login, whatever cookies it sets. */
  lemma LoginNeedsMainRedirect(conn: Conn, net: Network, libs: Libs, user: string, company: string, password: string)
    requires libs.validUrl(Lookup(conn.urls, "login"))
    requires var req := LoginRequest(conn, user, company, password);
      net(req).Ok? && !HasSuffix(net(req).value.location, RawUrls["loginRedirect"])
    ensures LoginOutcome(conn, net, libs, user, company, password) == Err(RedirectMismatch)
  {
  }

  /** The logout request: a GET carrying the jar's cookies. */
  function LogoutRequest(conn: Conn): Request
  {
    Request("GET", Lookup(conn.urls, "logout"), map[], conn.jar)
  }

  /**
   * Logout: nothing to do when logged out; otherwise the error of the
   * request or round trip, if any. The session stays logged in exactly when
   * this is an error.
   */
  function LogoutOutcome(conn: Conn, net: Network, libs: Libs): (r: Option<Error>)
    ensures !conn.loggedIn ==> r.None?
    ensures conn.loggedIn ==> (r.None? <==> libs.validUrl(Lookup(conn.urls, "logout")) && net(LogoutRequest(conn)).Ok?)
    ensures var req := LogoutRequest(conn);
      && (conn.loggedIn && !libs.validUrl(req.url) ==> r == Some(BadUrl(req.url)))
      && (conn.loggedIn && libs.validUrl(req.url) && net(req).Err? ==> r == Some(Transport(net(req).error)))
  {
    if !conn.loggedIn then None
    else
      var req := LogoutRequest(conn);
      if !libs.validUrl(req.url) then Some(BadUrl(req.url))
      else match net(req)
        case Err(cause) => Some(Transport(cause))
        case Ok(_) => None
  }

  // ---------------------------------------------------------------------------
  // SearchStudent
  // ---------------------------------------------------------------------------

  /** The ids of a search result page: group 1 of each match, stopping silently at a match of another shape. */
  function SearchIds(ms: seq<seq<string>>): (r: seq<string>)
    ensures |r| <= |ms|
    ensures forall k :: 0 <= k < |r| ==> |ms[k]| == 2 && r[k] == ms[k][1]
    ensures |r| < |ms| ==> |ms[|r|]| != 2
    decreases |ms|
  {
    if ms == [] || |ms[0]| != 2 then [] else [ms[0][1]] + SearchIds(ms[1..])
  }

  /** With a one-group pattern no match is skipped: every match yields its id. */
  lemma {:induction false} SearchIdsAll(ms: seq<seq<string>>)
    requires forall k :: 0 <= k < |ms| ==> |ms[k]| == 2
    ensures SearchIds(ms) == FirstGroups(ms)
    decreases |ms|
  {
    if ms != [] {
      SearchIdsAll(ms[1..]);
    }
  }

  /**
   * SearchStudent: the ids of the students found, and the error. An empty
   * value is refused before the login state is looked at.
   */
  function Search(conn: Conn, net: Network, libs: Libs, searchBy: string, value: string): (r: Partial<string, Error>)
    ensures value == "" ==> r == Partial([], Some(EmptySearchValue))
    ensures value != "" && !conn.loggedIn ==> r == Partial([], Some(NotLoggedIn))
    ensures r.err.Some? ==> r.items == []
    ensures value != "" && conn.loggedIn ==>
      var page := Fetch(conn, net, libs, "POST", Lookup(conn.urls, "studentSearch"), SearchForm(searchBy, value));
      && (page.Err? ==> r == Partial([], Some(page.error)))
      && (page.Ok? ==> r == Partial(SearchIds(libs.pats.searchId(page.value)), None))
  {
    if value == "" then Partial([], Some(EmptySearchValue))
    else if !conn.loggedIn then Partial([], Some(NotLoggedIn))
    else match Fetch(conn, net, libs, "POST", Lookup(conn.urls, "studentSearch"), SearchForm(searchBy, value))
      case Err(e) => Partial([], Some(e))
      case Ok(body) => Partial(SearchIds(libs.pats.searchId(body)), None)
  }

  /**
   * A successful search returns the id of every match on the result page,
   * in page order.
   */
  lemma SearchReturnsEveryMatch(conn: Conn, net: Network, libs: Libs, searchBy: string, value: string)
    requires libs.pats.Valid()
    requires value != "" && conn.loggedIn
    requires Fetch(conn, net, libs, "POST", Lookup(conn.urls, "studentSearch"), SearchForm(searchBy, value)).Ok?
    ensures var body := Fetch(conn, net, libs, "POST", Lookup(conn.urls, "studentSearch"), SearchForm(searchBy, value)).value;
      Search(conn, net, libs, searchBy, value) == Partial(FirstGroups(libs.pats.searchId(body)), None)
  {
    var body := Fetch(conn, net, libs, "POST", Lookup(conn.urls, "studentSearch"), SearchForm(searchBy, value)).value;
    SearchIdsAll(libs.pats.searchId(body));
  }

  // ---------------------------------------------------------------------------
  // GetStudent and GetCategory
  // ---------------------------------------------------------------------------

  function StudentUrl(conn: Conn, id: string): string
  {
    Lookup(conn.urls, "viewStudent") + "?student.id=" + id
  }

  /** The student page GetStudent fetches, if it fetches one, has the layout getStudent indexes into. */
  predicate StudentSafe(conn: Conn, net: Network, libs: Libs, id: string)
  {
    var page := Get(conn, net, libs, StudentUrl(conn, id));
    conn.loggedIn && page.Ok? ==> StudentLayout(libs.tablesOf(page.value))
  }

  /** GetStudent: the student with the given id, parsed from its detail page. */
  function StudentById(conn: Conn, net: Network, libs: Libs, id: string): (r: Result<Student, Error>)
    requires StudentSafe(conn, net, libs, id)
    ensures !conn.loggedIn ==> r == Err(NotLoggedIn)
    ensures var page := Get(conn, net, libs, StudentUrl(conn, id));
      && (r.Ok? <==> conn.loggedIn && page.Ok?)
      && (conn.loggedIn && page.Err? ==> r == Err(page.error))
      && (r.Ok? ==> r.value == ParseStudent(libs.tablesOf(page.value), libs))
  {
    if !conn.loggedIn then Err(NotLoggedIn)
    else match Get(conn, net, libs, StudentUrl(conn, id))
      case Err(e) => Err(e)
      case Ok(body) => Ok(ParseStudent(libs.tablesOf(body), libs))
  }

  function CategoryUrl(conn: Conn, id: string): string
  {
    Lookup(conn.urls, "viewCategory") + id
  }

  /** GetCategory: the category with the given id, read from its detail page. */
  function CategoryById(conn: Conn, net: Network, libs: Libs, id: string): (r: Result<Category, Error>)
    ensures !conn.loggedIn ==> r == Err(NotLoggedIn)
    ensures r.Ok? ==> r.value.id == id
  {
    if !conn.loggedIn then Err(NotLoggedIn)
    else match Get(conn, net, libs, CategoryUrl(conn, id))
      case Err(e) => Err(e)
      case Ok(body) => CategoryFromPage(id, libs.tablesOf(body))
  }

  /**
   * GetCategory succeeds exactly when the session is logged in, the page is
   * fetched and has the category layout; the name is then table 0, row 2,
   * cell 1. A fetch error is returned as is, a layout mismatch as
   * CategoryShape.
   */
  lemma CategoryPageRule(conn: Conn, net: Network, libs: Libs, id: string)
    ensures var r, page := CategoryById(conn, net, libs, id), Get(conn, net, libs, CategoryUrl(conn, id));
      && (r.Ok? <==> conn.loggedIn && page.Ok? && CategoryLayout(libs.tablesOf(page.value)))
      && (conn.loggedIn && page.Err? ==> r == Err(page.error))
      && (conn.loggedIn && page.Ok? && !CategoryLayout(libs.tablesOf(page.value)) ==> r == Err(CategoryShape))
      && (r.Ok? ==> r.value == Category(id, libs.tablesOf(page.value)[0][2][1]))
  {
  }

  // ---------------------------------------------------------------------------
  // getCategories and GetCurrentCategoriesAndClasses
  // ---------------------------------------------------------------------------

  /** The category ids linked from a listing page, in page order. */
  function CategoryIds(libs: Libs, data: string): (r: seq<string>)
    requires AllArity(libs.pats.categoryLink, 1)
    ensures |r| == |libs.pats.categoryLink(data)|
    ensures forall k :: 0 <= k < |r| ==> r[k] == libs.pats.categoryLink(data)[k][1]
  {
    FirstGroups(libs.pats.categoryLink(data))
  }

  /** The loop of getCategories over the ids: GetCategory for each, stopping at the first failure. */
  function CategoriesOf(conn: Conn, net: Network, libs: Libs, ids: seq<string>): Partial<Category, Error>
    decreases |ids|
  {
    if ids == [] then Partial([], None)
    else match CategoryById(conn, net, libs, ids[0])
      case Err(e) => Partial([], Some(e))
      case Ok(c) => Prepend([c], CategoriesOf(conn, net, libs, ids[1..]))
  }

  /** getCategories: the categories linked from a listing page. */
  function Categories(conn: Conn, net: Network, libs: Libs, data: string): Partial<Category, Error>
    requires AllArity(libs.pats.categoryLink, 1)
  {
    CategoriesOf(conn, net, libs, CategoryIds(libs, data))
  }

  /** getCategories gets through every linked id exactly when it returns no error. */
  lemma {:induction false} CategoriesCountLinks(conn: Conn, net: Network, libs: Libs, ids: seq<string>)
    ensures var r := CategoriesOf(conn, net, libs, ids);
      && |r.items| <= |ids|
      && (r.err.None? <==> |r.items| == |ids|)
    decreases |ids|
  {
    if ids != [] && CategoryById(conn, net, libs, ids[0]).Ok? {
      CategoriesCountLinks(conn, net, libs, ids[1..]);
    }
  }

  /**
   * getCategories yields one category per linked id it gets through, in page
   * order: the k-th category is the one GetCategory returns for the k-th id.
   */
  lemma {:induction false} CategoriesOnePerLink(conn: Conn, net: Network, libs: Libs, ids: seq<string>, k: nat)
    requires k < |CategoriesOf(conn, net, libs, ids).items|
    ensures k < |ids| && CategoryById(conn, net, libs, ids[k]) == Ok(CategoriesOf(conn, net, libs, ids).items[k])
    decreases k
  {
    if k > 0 {
      CategoriesOnePerLink(conn, net, libs, ids[1..], k - 1);
      assert ids[k] == ids[1..][k - 1];
    }
  }

  /**
   * getCategories stops at the first id GetCategory fails on, returning the
   * categories before it with that error.
   */
  lemma {:induction false} CategoriesStopAtFailedLink(conn: Conn, net: Network, libs: Libs, ids: seq<string>)
    ensures var r := CategoriesOf(conn, net, libs, ids);
      r.err.Some? ==> |r.items| < |ids| && CategoryById(conn, net, libs, ids[|r.items|]) == Err(r.err.value)
    decreases |ids|
  {
    if ids != [] && CategoryById(conn, net, libs, ids[0]).Ok? {
      var rest := CategoriesOf(conn, net, libs, ids[1..]);
      var r := CategoriesOf(conn, net, libs, ids);
      assert r == Prepend([CategoryById(conn, net, libs, ids[0]).value], rest);
      if rest.err.Some? {
        CategoriesStopAtFailedLink(conn, net, libs, ids[1..]);
        assert |r.items| == |rest.items| + 1;
        assert ids[|r.items|] == ids[1..][|rest.items|];
      }
    }
  }

  /**
   * One iteration of getCategories's loop, with acc gathered so far:
   * GetCategory on the n-th id either ends the loop with its error or adds
   * its category.
   */
  lemma CategoriesNext(conn: Conn, net: Network, libs: Libs, ids: seq<string>, n: nat, acc: seq<Category>)
    requires n < |ids|
    ensures var c := CategoryById(conn, net, libs, ids[n]);
      && (c.Err? ==> Prepend(acc, CategoriesOf(conn, net, libs, ids[n..])) == Partial(acc, Some(c.error)))
      && (c.Ok? ==>
            Prepend(acc, CategoriesOf(conn, net, libs, ids[n..]))
            == Prepend(acc + [c.value], CategoriesOf(conn, net, libs, ids[n + 1..])))
  {
    assert ids[n..][0] == ids[n] && ids[n..][1..] == ids[n + 1..];
    var c := CategoryById(conn, net, libs, ids[n]);
    if c.Ok? {
      PrependTwice(acc, [c.value], CategoriesOf(conn, net, libs, ids[n + 1..]));
    }
  }

  /** The categories, the classes and the error GetCurrentCategoriesAndClasses returns. */
  datatype Listing = Listing(categories: seq<Category>, classes: seq<Class>, err: Option<Error>)

  function ListingPage(conn: Conn, net: Network, libs: Libs): Result<string, Error>
  {
    Get(conn, net, libs, Lookup(conn.urls, "listCategoryAndClass"))
  }

  /** getClasses does not panic on the listing page, if it is reached. */
  ghost predicate ListingSafe(conn: Conn, net: Network, libs: Libs)
    requires AllArity(libs.pats.categoryLink, 1)
  {
    var page := ListingPage(conn, net, libs);
    conn.loggedIn && page.Ok? && Categories(conn, net, libs, page.value).err.None? ==>
      ClassesSafe(libs.tablesOf(page.value), libs.pats)
  }

  /**
   * GetCurrentCategoriesAndClasses: the categories linked from the listing
   * page, then, if all of them could be fetched, the classes of its tables.
   * A category failure leaves the categories fetched so far and no classes;
   * a class failure leaves all categories and the classes parsed so far.
   */
  function CategoriesAndClasses(conn: Conn, net: Network, libs: Libs): (r: Listing)
    requires AllArity(libs.pats.categoryLink, 1) && ListingSafe(conn, net, libs)
    ensures !conn.loggedIn ==> r == Listing([], [], Some(NotLoggedIn))
    ensures r.classes != [] ==>
      && conn.loggedIn && ListingPage(conn, net, libs).Ok?
      && Categories(conn, net, libs, ListingPage(conn, net, libs).value) == Partial(r.categories, None)
    ensures conn.loggedIn && ListingPage(conn, net, libs).Err? ==>
      r == Listing([], [], Some(ListingPage(conn, net, libs).error))
    ensures conn.loggedIn && ListingPage(conn, net, libs).Ok? ==>
      var body := ListingPage(conn, net, libs).value;
      var cats := Categories(conn, net, libs, body);
      && r.categories == cats.items
      && (cats.err.Some? ==> r.classes == [] && r.err == cats.err)
      && (cats.err.None? ==> Partial(r.classes, r.err) == Classes(libs.tablesOf(body), libs.pats))
  {
    if !conn.loggedIn then Listing([], [], Some(NotLoggedIn))
    else match ListingPage(conn, net, libs)
      case Err(e) => Listing([], [], Some(e))
      case Ok(body) =>
        var cats := Categories(conn, net, libs, body);
        if cats.err.Some? then Listing(cats.items, [], cats.err)
        else
          var cls := Classes(libs.tablesOf(body), libs.pats);
          Listing(cats.items, cls.items, cls.err)
  }

  // ---------------------------------------------------------------------------
  // getStudentsPerPage, getStudentsOfClass, GetStudentsOfClass
  // ---------------------------------------------------------------------------

  /** The student-list link matched, and the student it names can be parsed. */
  predicate StudentRowSafe(conn: Conn, net: Network, libs: Libs, row: Row)
  {
    StudentLinkMatched(row, libs.pats) && StudentSafe(conn, net, libs, StudentIdOf(row, libs.pats))
  }

  /** GetStudent on the id in a student-list row's link. */
  function RowStudent(conn: Conn, net: Network, libs: Libs, row: Row): Result<Student, Error>
    requires StudentRowSafe(conn, net, libs, row)
  {
    StudentById(conn, net, libs, StudentIdOf(row, libs.pats))
  }

  /** The loop of getStudentsPerPage never panics on the rows it reaches. */
  predicate RowsSafe(conn: Conn, net: Network, libs: Libs, rows: seq<Row>)
    decreases |rows|
  {
    rows == [] ||
      (StudentRowSafe(conn, net, libs, rows[0]) &&
        (RowStudent(conn, net, libs, rows[0]).Ok? ==> RowsSafe(conn, net, libs, rows[1..])))
  }

  /** The loop of getStudentsPerPage: GetStudent for each row's student, stopping at the first failure. */
  function StudentsOfRows(conn: Conn, net: Network, libs: Libs, rows: seq<Row>): Partial<Student, Error>
    requires RowsSafe(conn, net, libs, rows)
    decreases |rows|
  {
    if rows == [] then Partial([], None)
    else match RowStudent(conn, net, libs, rows[0])
      case Err(e) => Partial([], Some(e))
      case Ok(s) => Prepend([s], StudentsOfRows(conn, net, libs, rows[1..]))
  }

  /** getStudentsPerPage gets through every data row exactly when it returns no error. */
  lemma {:induction false} StudentsCountRows(conn: Conn, net: Network, libs: Libs, rows: seq<Row>)
    requires RowsSafe(conn, net, libs, rows)
    ensures var r := StudentsOfRows(conn, net, libs, rows);
      && |r.items| <= |rows|
      && (r.err.None? <==> |r.items| == |rows|)
    decreases |rows|
  {
    if rows != [] && RowStudent(conn, net, libs, rows[0]).Ok? {
      StudentsCountRows(conn, net, libs, rows[1..]);
    }
  }

  /**
   * getStudentsPerPage yields one student per data row it gets through, in
   * row order: the k-th student is the one GetStudent returns for the id in
   * the k-th row's link.
   */
  lemma {:induction false} StudentsOnePerRow(conn: Conn, net: Network, libs: Libs, rows: seq<Row>, k: nat)
    requires RowsSafe(conn, net, libs, rows) && k < |StudentsOfRows(conn, net, libs, rows).items|
    ensures k < |rows| && StudentRowSafe(conn, net, libs, rows[k])
    ensures RowStudent(conn, net, libs, rows[k]) == Ok(StudentsOfRows(conn, net, libs, rows).items[k])
    decreases k
  {
    if k > 0 {
      StudentsOnePerRow(conn, net, libs, rows[1..], k - 1);
      assert rows[k] == rows[1..][k - 1];
    }
  }

  /**
   * getStudentsPerPage stops at the first row whose student cannot be
   * fetched, returning the students before it with GetStudent's error.
   */
  lemma {:induction false} StudentsStopAtFailedRow(conn: Conn, net: Network, libs: Libs, rows: seq<Row>)
    requires RowsSafe(conn, net, libs, rows)
    ensures var r := StudentsOfRows(conn, net, libs, rows);
      r.err.Some? ==>
        && |r.items| < |rows|
        && StudentRowSafe(conn, net, libs, rows[|r.items|])
        && RowStudent(conn, net, libs, rows[|r.items|]) == Err(r.err.value)
    decreases |rows|
  {
    if rows != [] {
      var first := RowStudent(conn, net, libs, rows[0]);
      if first.Ok? {
        var rest := StudentsOfRows(conn, net, libs, rows[1..]);
        var r := StudentsOfRows(conn, net, libs, rows);
        assert r == Prepend([first.value], rest);
        if rest.err.Some? {
          StudentsStopAtFailedRow(conn, net, libs, rows[1..]);
          var n := |rest.items|;
          assert r.items == [first.value] + rest.items && r.err == rest.err;
          assert rows[n + 1] == rows[1..][n];
        }
      }
    }
  }

  /**
   * One iteration of getStudentsPerPage's loop, with acc gathered so far:
   * the n-th row is safe, and GetStudent on its id either ends the loop with
   * its error or adds the student.
   */
  lemma StudentsPerPageNext(conn: Conn, net: Network, libs: Libs, rows: seq<Row>, n: nat, acc: seq<Student>)
    requires n < |rows| && RowsSafe(conn, net, libs, rows[n..])
    ensures StudentRowSafe(conn, net, libs, rows[n])
    ensures var r := RowStudent(conn, net, libs, rows[n]);
      && (r.Err? ==> Prepend(acc, StudentsOfRows(conn, net, libs, rows[n..])) == Partial(acc, Some(r.error)))
      && (r.Ok? ==>
            && RowsSafe(conn, net, libs, rows[n + 1..])
            && Prepend(acc, StudentsOfRows(conn, net, libs, rows[n..]))
               == Prepend(acc + [r.value], StudentsOfRows(conn, net, libs, rows[n + 1..])))
  {
    assert rows[n..][0] == rows[n] && rows[n..][1..] == rows[n + 1..];
    var r := RowStudent(conn, net, libs, rows[n]);
    if r.Ok? {
      PrependTwice(acc, [r.value], StudentsOfRows(conn, net, libs, rows[n + 1..]));
    }
  }

  /** The data rows of a student list page: the link is resolved against the server URL. */
  function ListPageRows(conn: Conn, net: Network, libs: Libs, link: string): (r: Result<seq<Row>, Error>)
    ensures var page := Get(conn, net, libs, libs.resolve(conn.base, link));
      && (page.Err? ==> r == Err(page.error))
      && (page.Ok? ==> r == StudentListRows(libs.tablesOf(page.value)))
  {
    match Get(conn, net, libs, libs.resolve(conn.base, link))
    case Err(e) => Err(e)
    case Ok(body) => StudentListRows(libs.tablesOf(body))
  }

  /**
   * getStudentsPerPage does not panic: the link parses (a nil reference
   * would be resolved otherwise), and the rows it reaches are safe.
   */
  predicate ListPageSafe(conn: Conn, net: Network, libs: Libs, link: string)
  {
    conn.loggedIn ==>
      && libs.validUrl(link)
      && var rows := ListPageRows(conn, net, libs, link);
         rows.Ok? ==> RowsSafe(conn, net, libs, rows.value)
  }

  /** getStudentsPerPage: the students of one page of a class's student list. */
  function StudentsOfListPage(conn: Conn, net: Network, libs: Libs, link: string): (r: Partial<Student, Error>)
    requires ListPageSafe(conn, net, libs, link)
    ensures !conn.loggedIn ==> r == Partial([], Some(NotLoggedIn))
    ensures conn.loggedIn ==>
      var rows := ListPageRows(conn, net, libs, link);
      && (rows.Err? ==> r == Partial([], Some(rows.error)))
      && (rows.Ok? ==> r == StudentsOfRows(conn, net, libs, rows.value))
  {
    if !conn.loggedIn then Partial([], Some(NotLoggedIn))
    else match ListPageRows(conn, net, libs, link)
      case Err(e) => Partial([], Some(e))
      case Ok(rows) => StudentsOfRows(conn, net, libs, rows)
  }

  /** The loop of getStudentsOfClass never panics on the pages it reaches. */
  predicate LinksSafe(conn: Conn, net: Network, libs: Libs, links: seq<string>)
    decreases |links|
  {
    links == [] ||
      (ListPageSafe(conn, net, libs, links[0]) &&
        (StudentsOfListPage(conn, net, libs, links[0]).err.None? ==> LinksSafe(conn, net, libs, links[1..])))
  }

  /**
   * The loop of getStudentsOfClass: each page's students appended in link
   * order, stopping at the first failing page (whose partial list is dropped).
   */
  function StudentsOfLinks(conn: Conn, net: Network, libs: Libs, links: seq<string>): Partial<Student, Error>
    requires LinksSafe(conn, net, libs, links)
    decreases |links|
  {
    if links == [] then Partial([], None)
    else
      var page := StudentsOfListPage(conn, net, libs, links[0]);
      if page.err.Some? then Partial([], page.err)
      else Prepend(page.items, StudentsOfLinks(conn, net, libs, links[1..]))
  }

  /**
   * When the loop of getStudentsOfClass never panics on xs followed by ys,
   * it never panics on xs, nor on ys when it gets through xs.
   */
  lemma {:induction false} LinksSplitSafe(conn: Conn, net: Network, libs: Libs, xs: seq<string>, ys: seq<string>)
    requires LinksSafe(conn, net, libs, xs + ys)
    ensures LinksSafe(conn, net, libs, xs)
    ensures StudentsOfLinks(conn, net, libs, xs).err.None? ==> LinksSafe(conn, net, libs, ys)
    decreases |xs|
  {
    if xs != [] {
      assert (xs + ys)[0] == xs[0] && (xs + ys)[1..] == xs[1..] + ys;
      if StudentsOfListPage(conn, net, libs, xs[0]).err.None? {
        LinksSplitSafe(conn, net, libs, xs[1..], ys);
      }
    } else {
      assert xs + ys == ys;
    }
  }

  /**
   * getStudentsOfClass stops at the first failing page: over the links xs
   * followed by ys, a failure in xs is the result and ys is never read.
   */
  lemma {:induction false} StudentsOfPagesStopAtFailedPage(conn: Conn, net: Network, libs: Libs, xs: seq<string>, ys: seq<string>)
    requires LinksSafe(conn, net, libs, xs + ys) && LinksSafe(conn, net, libs, xs)
    ensures var first := StudentsOfLinks(conn, net, libs, xs);
      first.err.Some? ==> StudentsOfLinks(conn, net, libs, xs + ys) == first
    decreases |xs|
  {
    if xs != [] {
      assert (xs + ys)[0] == xs[0] && (xs + ys)[1..] == xs[1..] + ys;
      var page := StudentsOfListPage(conn, net, libs, xs[0]);
      if page.err.None? {
        StudentsOfPagesStopAtFailedPage(conn, net, libs, xs[1..], ys);
        assert StudentsOfLinks(conn, net, libs, xs) == Prepend(page.items, StudentsOfLinks(conn, net, libs, xs[1..]));
        assert StudentsOfLinks(conn, net, libs, xs + ys) == Prepend(page.items, StudentsOfLinks(conn, net, libs, xs[1..] + ys));
      } else {
        assert StudentsOfLinks(conn, net, libs, xs + ys) == Partial([], page.err);
      }
    }
  }

  /**
   * getStudentsOfClass reads the pages in link order: over the links xs
   * followed by ys, when every page of xs is read without error the result
   * is the students of xs followed by what ys gives.
   */
  lemma {:induction false} StudentsOfPagesInLinkOrder(conn: Conn, net: Network, libs: Libs, xs: seq<string>, ys: seq<string>)
    requires LinksSafe(conn, net, libs, xs + ys)
    requires LinksSafe(conn, net, libs, xs) && LinksSafe(conn, net, libs, ys)
    ensures var first := StudentsOfLinks(conn, net, libs, xs);
      first.err.None? ==>
        StudentsOfLinks(conn, net, libs, xs + ys) == Prepend(first.items, StudentsOfLinks(conn, net, libs, ys))
    decreases |xs|
  {
    if xs == [] {
      assert xs + ys == ys;
    } else {
      assert (xs + ys)[0] == xs[0] && (xs + ys)[1..] == xs[1..] + ys;
      var page := StudentsOfListPage(conn, net, libs, xs[0]);
      if page.err.None? {
        var first := StudentsOfLinks(conn, net, libs, xs[1..]);
        if first.err.None? {
          StudentsOfPagesInLinkOrder(conn, net, libs, xs[1..], ys);
          PrependTwice(page.items, first.items, StudentsOfLinks(conn, net, libs, ys));
        }
      }
    }
  }

  /**
   * One iteration of getStudentsOfClass's loop, with acc gathered so far:
   * the n-th page is safe, and it either ends the loop with its error or adds
   * all of its students.
   */
  lemma PagesNext(conn: Conn, net: Network, libs: Libs, links: seq<string>, n: nat, acc: seq<Student>)
    requires n < |links| && LinksSafe(conn, net, libs, links[n..])
    ensures ListPageSafe(conn, net, libs, links[n])
    ensures var p := StudentsOfListPage(conn, net, libs, links[n]);
      && (p.err.Some? ==> Prepend(acc, StudentsOfLinks(conn, net, libs, links[n..])) == Partial(acc, p.err))
      && (p.err.None? ==>
            && LinksSafe(conn, net, libs, links[n + 1..])
            && Prepend(acc, StudentsOfLinks(conn, net, libs, links[n..]))
               == Prepend(acc + p.items, StudentsOfLinks(conn, net, libs, links[n + 1..])))
  {
    assert links[n..][0] == links[n] && links[n..][1..] == links[n + 1..];
    var p := StudentsOfListPage(conn, net, libs, links[n]);
    if p.err.None? {
      PrependTwice(acc, p.items, StudentsOfLinks(conn, net, libs, links[n + 1..]));
    }
  }

  predicate PagesSafe(conn: Conn, net: Network, libs: Libs, data: string)
    requires AllArity(libs.pats.pageLink, 1)
  {
    LinksSafe(conn, net, libs, PageLinks(data, libs.pats))
  }

  /** getStudentsOfClass: the students of every page linked from a class's first list page. */
  function StudentsOfPages(conn: Conn, net: Network, libs: Libs, data: string): Partial<Student, Error>
    requires AllArity(libs.pats.pageLink, 1) && PagesSafe(conn, net, libs, data)
  {
    StudentsOfLinks(conn, net, libs, PageLinks(data, libs.pats))
  }

  function ClassListUrl(conn: Conn, classId: string): string
  {
    Lookup(conn.urls, "listStudentsOfClass") + classId
  }

  predicate ClassStudentsSafe(conn: Conn, net: Network, libs: Libs, classId: string)
    requires AllArity(libs.pats.pageLink, 1)
  {
    var page := Get(conn, net, libs, ClassListUrl(conn, classId));
    conn.loggedIn && page.Ok? ==> PagesSafe(conn, net, libs, page.value)
  }

  /** GetStudentsOfClass: the students of every list page of the class. */
  function StudentsOfClass(conn: Conn, net: Network, libs: Libs, classId: string): (r: Partial<Student, Error>)
    requires AllArity(libs.pats.pageLink, 1) && ClassStudentsSafe(conn, net, libs, classId)
    ensures !conn.loggedIn ==> r == Partial([], Some(NotLoggedIn))
    ensures conn.loggedIn ==>
      var page := Get(conn, net, libs, ClassListUrl(conn, classId));
      && (page.Err? ==> r == Partial([], Some(page.error)))
      && (page.Ok? ==> r == StudentsOfPages(conn, net, libs, page.value))
  {
    if !conn.loggedIn then Partial([], Some(NotLoggedIn))
    else match Get(conn, net, libs, ClassListUrl(conn, classId))
      case Err(e) => Partial([], Some(e))
      case Ok(body) => StudentsOfPages(conn, net, libs, body)
  }

  // ---------------------------------------------------------------------------
  // GetCurrentStudents
  // ---------------------------------------------------------------------------

  /** The loop of GetCurrentStudents never panics on the classes it reaches. */
  predicate ClassesStudentsSafe(conn: Conn, net: Network, libs: Libs, classes: seq<Class>)
    requires AllArity(libs.pats.pageLink, 1)
    decreases |classes|
  {
    classes == [] ||
      (ClassStudentsSafe(conn, net, libs, classes[0].classInstanceId) &&
        (StudentsOfClass(conn, net, libs, classes[0].classInstanceId).err.None? ==>
           ClassesStudentsSafe(conn, net, libs, classes[1..])))
  }

  /** The loop of GetCurrentStudents: each class's students appended in class order, stopping at the first failure. */
  function StudentsOfClasses(conn: Conn, net: Network, libs: Libs, classes: seq<Class>): Partial<Student, Error>
    requires AllArity(libs.pats.pageLink, 1) && ClassesStudentsSafe(conn, net, libs, classes)
    decreases |classes|
  {
    if classes == [] then Partial([], None)
    else
      var r := StudentsOfClass(conn, net, libs, classes[0].classInstanceId);
      if r.err.Some? then Partial([], r.err)
      else Prepend(r.items, StudentsOfClasses(conn, net, libs, classes[1..]))
  }

  /**
   * One iteration of GetCurrentStudents's loop, with acc gathered so far:
   * GetStudentsOfClass on the n-th class either ends the loop with its error
   * or adds all its students.
   */
  lemma ClassesNext(conn: Conn, net: Network, libs: Libs, classes: seq<Class>, n: nat, acc: seq<Student>)
    requires AllArity(libs.pats.pageLink, 1)
    requires n < |classes| && ClassesStudentsSafe(conn, net, libs, classes[n..])
    ensures ClassStudentsSafe(conn, net, libs, classes[n].classInstanceId)
    ensures var r := StudentsOfClass(conn, net, libs, classes[n].classInstanceId);
      && (r.err.Some? ==> Prepend(acc, StudentsOfClasses(conn, net, libs, classes[n..])) == Partial(acc, r.err))
      && (r.err.None? ==>
            && ClassesStudentsSafe(conn, net, libs, classes[n + 1..])
            && Prepend(acc, StudentsOfClasses(conn, net, libs, classes[n..]))
               == Prepend(acc + r.items, StudentsOfClasses(conn, net, libs, classes[n + 1..])))
  {
    assert classes[n..][0] == classes[n] && classes[n..][1..] == classes[n + 1..];
    var r := StudentsOfClass(conn, net, libs, classes[n].classInstanceId);
    if r.err.None? {
      PrependTwice(acc, r.items, StudentsOfClasses(conn, net, libs, classes[n + 1..]));
    }
  }

  /** GetStudentsOfClass, reached safely, succeeds on the class. */
  predicate ClassFetched(conn: Conn, net: Network, libs: Libs, c: Class)
    requires AllArity(libs.pats.pageLink, 1)
  {
    ClassStudentsSafe(conn, net, libs, c.classInstanceId) && StudentsOfClass(conn, net, libs, c.classInstanceId).err.None?
  }

  /** The loop of GetCurrentStudents succeeds exactly when GetStudentsOfClass succeeds on every class. */
  lemma {:induction false} StudentsOfClassesSucceed(conn: Conn, net: Network, libs: Libs, classes: seq<Class>)
    requires AllArity(libs.pats.pageLink, 1) && ClassesStudentsSafe(conn, net, libs, classes)
    ensures StudentsOfClasses(conn, net, libs, classes).err.None? <==>
      forall k :: 0 <= k < |classes| ==> ClassFetched(conn, net, libs, classes[k])
    decreases |classes|
  {
    if classes != [] {
      if ClassFetched(conn, net, libs, classes[0]) {
        var rest := classes[1..];
        StudentsOfClassesSucceed(conn, net, libs, rest);
        if forall k :: 0 <= k < |rest| ==> ClassFetched(conn, net, libs, rest[k]) {
          forall k | 0 < k < |classes|
            ensures ClassFetched(conn, net, libs, classes[k])
          {
            assert classes[k] == rest[k - 1];
          }
        } else {
          var j :| 0 <= j < |rest| && !ClassFetched(conn, net, libs, rest[j]);
          assert rest[j] == classes[j + 1];
        }
      }
    }
  }

  ghost predicate CurrentStudentsSafe(conn: Conn, net: Network, libs: Libs)
    requires libs.pats.Valid()
  {
    && ListingSafe(conn, net, libs)
    && var l := CategoriesAndClasses(conn, net, libs);
       l.err.None? ==> ClassesStudentsSafe(conn, net, libs, l.classes)
  }

  /** GetCurrentStudents: the students of every current class, in class order. */
  function CurrentStudents(conn: Conn, net: Network, libs: Libs): (r: Partial<Student, Error>)
    requires libs.pats.Valid() && CurrentStudentsSafe(conn, net, libs)
    ensures !conn.loggedIn ==> r == Partial([], Some(NotLoggedIn))
  {
    var l := CategoriesAndClasses(conn, net, libs);
    if l.err.Some? then Partial([], l.err)
    else StudentsOfClasses(conn, net, libs, l.classes)
  }

  // ---------------------------------------------------------------------------
  // The login guard
  // ---------------------------------------------------------------------------

  /**
   * Every data operation refuses a logged-out session with NotLoggedIn and
   * no data, and sends nothing: its result is the same whatever the server
   * would answer. (SearchStudent first refuses an empty value.)
   */
  lemma LoggedOutSendsNothing(conn: Conn, net: Network, other: Network, libs: Libs, id: string, link: string, searchBy: string, value: string)
    requires libs.pats.Valid() && !conn.loggedIn
    ensures StudentById(conn, net, libs, id) == StudentById(conn, other, libs, id) == Err(NotLoggedIn)
    ensures CategoryById(conn, net, libs, id) == CategoryById(conn, other, libs, id) == Err(NotLoggedIn)
    ensures CategoriesAndClasses(conn, net, libs) == CategoriesAndClasses(conn, other, libs) == Listing([], [], Some(NotLoggedIn))
    ensures StudentsOfListPage(conn, net, libs, link) == StudentsOfListPage(conn, other, libs, link) == Partial([], Some(NotLoggedIn))
    ensures StudentsOfClass(conn, net, libs, id) == StudentsOfClass(conn, other, libs, id) == Partial([], Some(NotLoggedIn))
    ensures CurrentStudents(conn, net, libs) == CurrentStudents(conn, other, libs) == Partial([], Some(NotLoggedIn))
    ensures Search(conn, net, libs, searchBy, value) == Search(conn, other, libs, searchBy, value)
    ensures LogoutOutcome(conn, net, libs) == LogoutOutcome(conn, other, libs) == None
  {
  }
}
