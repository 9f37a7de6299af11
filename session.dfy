/**
 * The Session object of the ming800 client: its login state, its endpoint
 * URLs and its cookie jar, updated in place by NewSession, Login and Logout,
 * and the read-only operations that scrape the server. Each method is proved
 * to compute the function of SessionSpec that describes it.
 */
module Ming800 {
  import opened Wrappers
  import opened Collecting
  import opened Html
  import opened Records
  import opened Web
  import opened Parsers
  import opened SessionSpec

  /** The zero Student value GetStudent returns with an error. */
  const EmptyStudent: Student := Student("", "", "", "", "", "", [])

  class Session {
    const serverURL: string
    const company: string
    const user: string
    const password: string
    /** The login state. */
    var loggedIn: bool
    /** The endpoint URLs by action name; empty when the server URL did not parse. */
    var urls: map<string, string>
    /** The cookies the session sends. */
    var jar: Jar

    /** What the operations read of the session. */
    function Snapshot(): Conn
      reads this
    {
      Conn(loggedIn, serverURL, urls, jar)
    }

    constructor (serverURL: string, company: string, user: string, password: string)
      ensures this.serverURL == serverURL && this.company == company
      ensures this.user == user && this.password == password
      ensures !loggedIn && urls == map[] && jar == map[]
    {
      this.serverURL := serverURL;
      this.company := company;
      this.user := user;
      this.password := password;
      loggedIn := false;
      urls := map[];
      jar := map[];
    }

    /**
     * NewSession: a logged-out session with an empty jar. It fails exactly
     * when the server URL does not parse, and then has no endpoint URLs;
     * otherwise every action's path is resolved against the server URL.
     */
    static method NewSession(serverURL: string, company: string, user: string, password: string, libs: Libs)
      returns (s: Session, err: Option<Error>)
      ensures fresh(s)
      ensures s.serverURL == serverURL && s.company == company && s.user == user && s.password == password
      ensures !s.loggedIn && s.jar == map[]
      ensures err.Some? <==> !libs.validUrl(serverURL)
      ensures err.Some? ==> err.value == BadUrl(serverURL) && s.urls == map[]
      ensures err.None? ==> s.urls.Keys == RawUrls.Keys
      ensures err.None? ==> forall k :: k in s.urls ==> s.urls[k] == libs.resolve(serverURL, RawUrls[k])
    {
      s := new Session(serverURL, company, user, password);
      if !libs.validUrl(serverURL) {
        err := Some(BadUrl(serverURL));
        return;
      }
      err := None;
      var keys := RawUrls.Keys;
      while keys != {}
        invariant keys <= RawUrls.Keys
        invariant s.urls.Keys == RawUrls.Keys - keys
        invariant forall k :: k in s.urls ==> s.urls[k] == libs.resolve(serverURL, RawUrls[k])
        invariant !s.loggedIn && s.jar == map[]
        decreases keys
      {
        var k :| k in keys;
        s.urls := s.urls[k := libs.resolve(serverURL, RawUrls[k])];
        keys := keys - {k};
      }
    }

    /**
     * Login: on success the session cookie is installed in the jar and the
     * session is logged in; on failure nothing changes.
     */
    method Login(net: Network, libs: Libs) returns (err: Option<Error>)
      modifies this
      ensures urls == old(urls)
      ensures match LoginOutcome(old(Snapshot()), net, libs, user, company, password)
        case Ok(cookies) => err == None && loggedIn && jar == old(jar)[SessionCookieName := cookies[0].value]
        case Err(e) => err == Some(e) && loggedIn == old(loggedIn) && jar == old(jar)
    {
      var req := LoginRequest(Snapshot(), user, company, password);
      if !libs.validUrl(req.url) {
        err := Some(BadUrl(req.url));
        return;
      }
      var resp := net(req);
      if resp.Err? {
        err := Some(Transport(resp.error));
        return;
      }
      if !GoStrings.HasSuffix(resp.value.location, RawUrls["loginRedirect"]) {
        err := Some(RedirectMismatch);
        return;
      }
      var respCookies := resp.value.cookies;
      if |respCookies| != 1 || respCookies[0].name != SessionCookieName {
        err := Some(NoSessionCookie);
        return;
      }
      jar := jar[respCookies[0].name := respCookies[0].value];
      loggedIn := true;
      err := None;
    }

    /**
     * Logout: a logged-out session is left alone; otherwise the logout
     * request is sent with the jar's cookies and the session is logged out
     * unless the request fails. The jar is kept.
     */
    method Logout(net: Network, libs: Libs) returns (err: Option<Error>)
      modifies this
      ensures err == LogoutOutcome(old(Snapshot()), net, libs)
      ensures loggedIn == (old(loggedIn) && err.Some?)
      ensures urls == old(urls) && jar == old(jar)
    {
      err := None;
      if !loggedIn {
        return;
      }
      var req := LogoutRequest(Snapshot());
      if !libs.validUrl(req.url) {
        err := Some(BadUrl(req.url));
        return;
      }
      var resp := net(req);
      if resp.Err? {
        err := Some(Transport(resp.error));
        return;
      }
      loggedIn := false;
    }

    /** SearchStudent: the ids of the matching students. */
    method SearchStudent(searchBy: string, value: string, net: Network, libs: Libs)
      returns (ids: seq<string>, err: Option<Error>)
      ensures Partial(ids, err) == Search(Snapshot(), net, libs, searchBy, value)
    {
      ids := [];
      if value == "" {
        err := Some(EmptySearchValue);
        return;
      }
      if !loggedIn {
        err := Some(NotLoggedIn);
        return;
      }
      var page := Fetch(Snapshot(), net, libs, "POST", Lookup(urls, "studentSearch"), SearchForm(searchBy, value));
      if page.Err? {
        err := Some(page.error);
        return;
      }
      err := None;
      var matched := libs.pats.searchId(page.value);
      var n := 0;
      while n < |matched|
        invariant n <= |matched|
        invariant SearchIds(matched) == ids + SearchIds(matched[n..])
      {
        assert matched[n..][0] == matched[n] && matched[n..][1..] == matched[n + 1..];
        if |matched[n]| != 2 {
          assert ids + [] == ids;
          return;
        }
        ids := ids + [matched[n][1]];
        n := n + 1;
      }
      assert ids + [] == ids;
    }

    /** SearchStudentByName. */
    method SearchStudentByName(name: string, net: Network, libs: Libs) returns (ids: seq<string>, err: Option<Error>)
      ensures Partial(ids, err) == Search(Snapshot(), net, libs, "byName", name)
    {
      ids, err := SearchStudent("byName", name, net, libs);
    }

    /** SearchStudentByPhoneNumber: the server's search kind for phone numbers is "byEmail". */
    method SearchStudentByPhoneNumber(phoneNumber: string, net: Network, libs: Libs)
      returns (ids: seq<string>, err: Option<Error>)
      ensures Partial(ids, err) == Search(Snapshot(), net, libs, "byEmail", phoneNumber)
    {
      ids, err := SearchStudent("byEmail", phoneNumber, net, libs);
    }

    /** GetStudent. */
    method GetStudent(id: string, net: Network, libs: Libs) returns (student: Student, err: Option<Error>)
      requires StudentSafe(Snapshot(), net, libs, id)
      ensures match StudentById(Snapshot(), net, libs, id)
        case Ok(s) => err == None && student == s
        case Err(e) => err == Some(e) && student == EmptyStudent
    {
      student := EmptyStudent;
      if !loggedIn {
        err := Some(NotLoggedIn);
        return;
      }
      var page := Get(Snapshot(), net, libs, StudentUrl(Snapshot(), id));
      if page.Err? {
        err := Some(page.error);
        return;
      }
      student := ParseStudent(libs.tablesOf(page.value), libs);
      err := None;
    }

    /** GetCategory. */
    method GetCategory(id: string, net: Network, libs: Libs) returns (category: Category, err: Option<Error>)
      ensures match CategoryById(Snapshot(), net, libs, id)
        case Ok(c) => err == None && category == c
        case Err(e) => err == Some(e) && category == Category("", "")
    {
      category := Category("", "");
      if !loggedIn {
        err := Some(NotLoggedIn);
        return;
      }
      var page := Get(Snapshot(), net, libs, CategoryUrl(Snapshot(), id));
      if page.Err? {
        err := Some(page.error);
        return;
      }
      var csvs := libs.tablesOf(page.value);
      if |csvs| != 2 || |csvs[0]| != 6 || |csvs[0][2]| != 4 {
        err := Some(CategoryShape);
        return;
      }
      category := Category(id, csvs[0][2][1]);
      err := None;
    }

    /** getCategories: GetCategory for each category linked from the page. */
    method GetCategories(data: string, net: Network, libs: Libs) returns (categories: seq<Category>, err: Option<Error>)
      requires AllArity(libs.pats.categoryLink, 1)
      ensures Partial(categories, err) == Categories(Snapshot(), net, libs, data)
    {
      ghost var conn := Snapshot();
      ghost var ids := CategoryIds(libs, data);
      ghost var total := CategoriesOf(conn, net, libs, ids);
      assert ids[0..] == ids;
      var matched := libs.pats.categoryLink(data);
      categories, err := [], None;
      var n := 0;
      while n < |matched|
        invariant n <= |matched| == |ids|
        invariant forall k :: 0 <= k < |ids| ==> |matched[k]| == 2 && ids[k] == matched[k][1]
        invariant err == None
        invariant total == Prepend(categories, CategoriesOf(conn, net, libs, ids[n..]))
      {
        CategoriesNext(conn, net, libs, ids, n, categories);
        var c, e := GetCategory(matched[n][1], net, libs);
        if e.Some? {
          err := e;
          return;
        }
        categories := categories + [c];
        n := n + 1;
      }
      assert categories + [] == categories;
    }

    /** GetCurrentCategoriesAndClasses. */
    method GetCurrentCategoriesAndClasses(net: Network, libs: Libs)
      returns (categories: seq<Category>, classes: seq<Class>, err: Option<Error>)
      requires AllArity(libs.pats.categoryLink, 1) && ListingSafe(Snapshot(), net, libs)
      ensures Listing(categories, classes, err) == CategoriesAndClasses(Snapshot(), net, libs)
    {
      categories, classes := [], [];
      if !loggedIn {
        err := Some(NotLoggedIn);
        return;
      }
      var page := Get(Snapshot(), net, libs, Lookup(urls, "listCategoryAndClass"));
      if page.Err? {
        err := Some(page.error);
        return;
      }
      categories, err := GetCategories(page.value, net, libs);
      if err.Some? {
        return;
      }
      classes, err := ParseClasses(libs.tablesOf(page.value), libs.pats);
    }

    /** getStudentsPerPage: the students listed on one page of a class's student list. */
    method GetStudentsPerPage(link: string, net: Network, libs: Libs) returns (students: seq<Student>, err: Option<Error>)
      requires ListPageSafe(Snapshot(), net, libs, link)
      ensures Partial(students, err) == StudentsOfListPage(Snapshot(), net, libs, link)
    {
      students := [];
      if !loggedIn {
        err := Some(NotLoggedIn);
        return;
      }
      var page := Get(Snapshot(), net, libs, libs.resolve(serverURL, link));
      if page.Err? {
        err := Some(page.error);
        return;
      }
      var csvs := libs.tablesOf(page.value);
      if |csvs| != 1 {
        err := Some(StudentListShape);
        return;
      }
      err := None;
      var table := csvs[0];
      ghost var conn := Snapshot();
      ghost var rows := ListPageRows(conn, net, libs, link).value;
      ghost var total := StudentsOfRows(conn, net, libs, rows);
      assert rows[0..] == rows;
      var i := 1;
      while i < |table|
        invariant 1 <= i && i - 1 <= |rows| == Max0(|table| - 1)
        invariant err == None
        invariant RowsSafe(conn, net, libs, rows[i - 1..])
        invariant total == Prepend(students, StudentsOfRows(conn, net, libs, rows[i - 1..]))
      {
        StudentsPerPageNext(conn, net, libs, rows, i - 1, students);
        var row := table[i];
        assert row == rows[i - 1];
        var matched := libs.pats.studentLink(row[0]);
        var id := matched.value[1];
        var student, e := GetStudent(id, net, libs);
        if e.Some? {
          err := e;
          return;
        }
        students := students + [student];
        i := i + 1;
      }
      assert students + [] == students;
    }

    /** getStudentsOfClass: the students of every page linked from a class's first list page, in link order. */
    method GetStudentsOfPages(data: string, net: Network, libs: Libs) returns (students: seq<Student>, err: Option<Error>)
      requires AllArity(libs.pats.pageLink, 1) && PagesSafe(Snapshot(), net, libs, data)
      ensures Partial(students, err) == StudentsOfPages(Snapshot(), net, libs, data)
    {
      var links := ParsePageLinks(data, libs.pats);
      assert links == PageLinks(data, libs.pats);
      ghost var conn := Snapshot();
      ghost var total := StudentsOfLinks(conn, net, libs, links);
      assert links[0..] == links;
      students, err := [], None;
      var n := 0;
      while n < |links|
        invariant n <= |links|
        invariant err == None
        invariant LinksSafe(conn, net, libs, links[n..])
        invariant total == Prepend(students, StudentsOfLinks(conn, net, libs, links[n..]))
      {
        PagesNext(conn, net, libs, links, n, students);
        var studentsPerPage, e := GetStudentsPerPage(links[n], net, libs);
        if e.Some? {
          err := e;
          return;
        }
        students := students + studentsPerPage;
        n := n + 1;
      }
      assert students + [] == students;
    }

    /** GetStudentsOfClass. */
    method GetStudentsOfClass(classId: string, net: Network, libs: Libs) returns (students: seq<Student>, err: Option<Error>)
      requires AllArity(libs.pats.pageLink, 1) && ClassStudentsSafe(Snapshot(), net, libs, classId)
      ensures Partial(students, err) == StudentsOfClass(Snapshot(), net, libs, classId)
    {
      students := [];
      if !loggedIn {
        err := Some(NotLoggedIn);
        return;
      }
      var page := Get(Snapshot(), net, libs, ClassListUrl(Snapshot(), classId));
      if page.Err? {
        err := Some(page.error);
        return;
      }
      students, err := GetStudentsOfPages(page.value, net, libs);
    }

    /** GetCurrentStudents: the students of every current class, in class order. */
    method GetCurrentStudents(net: Network, libs: Libs) returns (students: seq<Student>, err: Option<Error>)
      requires libs.pats.Valid() && CurrentStudentsSafe(Snapshot(), net, libs)
      ensures Partial(students, err) == CurrentStudents(Snapshot(), net, libs)
    {
      var _, classes, e := GetCurrentCategoriesAndClasses(net, libs);
      if e.Some? {
        students, err := [], e;
        return;
      }
      students, err := GetStudentsOfClasses(classes, net, libs);
    }

    /** The loop of GetCurrentStudents: GetStudentsOfClass for each class, stopping at the first failure. */
    method GetStudentsOfClasses(classes: seq<Class>, net: Network, libs: Libs) returns (students: seq<Student>, err: Option<Error>)
      requires AllArity(libs.pats.pageLink, 1)
      requires ClassesStudentsSafe(Snapshot(), net, libs, classes)
      ensures Partial(students, err) == StudentsOfClasses(Snapshot(), net, libs, classes)
    {
      ghost var conn := Snapshot();
      ghost var total := StudentsOfClasses(conn, net, libs, classes);
      assert classes[0..] == classes;
      students, err := [], None;
      var n := 0;
      while n < |classes|
        invariant n <= |classes|
        invariant err == None
        invariant ClassesStudentsSafe(conn, net, libs, classes[n..])
        invariant total == Prepend(students, StudentsOfClasses(conn, net, libs, classes[n..]))
      {
        ClassesNext(conn, net, libs, classes, n, students);
        var studentsOfClass, e := GetStudentsOfClass(classes[n].classInstanceId, net, libs);
        if e.Some? {
          err := e;
          return;
        }
        students := students + studentsOfClass;
        n := n + 1;
      }
      assert students + [] == students;
    }
  }
}
