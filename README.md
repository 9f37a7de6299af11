# ming800 session, modelled in Dafny

This project models `session.go` of the ming800 client. The client logs in to a
ming800 school-management server, keeps the login state and cookies, and reads
students, categories and classes by scraping the server's HTML pages.

What the model covers:

- **The `Session` object** (`Ming800.Session`). It is a class with the fields the
  Go code updates in place: `loggedIn`, `urls` (action name to resolved URL)
  and the cookie jar.
  - `NewSession` fills `urls` with a loop over the fixed action table.
  - `Login` changes the login state and the jar; `Logout` changes only the
    login state.
  - Every read operation is a method. Its loop is proved to compute a pure
    function of module `SessionSpec`.
- **The pure specifications** (`SessionSpec`). Each operation is a function of a
  snapshot of the session (`Conn`), the network and the foreign libraries. The
  lemmas about these functions state what the operations promise:
  - the guard order of `SearchStudent`, and the `NotLoggedIn` guard, which sends
    nothing;
  - one result per link or row, in document order;
  - a loop stops at its first failure and returns what it has gathered;
  - the pages of a class are read in link order.
- **The parsers** (`Parsers`): `getClassEventsOfStudent`, `getStudent`,
  `getClasses` (a nested loop over tables and rows), `getAllStudentPageLinks`,
  and the table-shape checks of `GetCategory` and `getStudentsPerPage`.
- **The Go string functions the parsers use** (`GoStrings`): `strings.HasSuffix`,
  `strings.TrimLeft` (which trims a cutset), `strings.Replace(s, old, "", -1)`,
  and the `^(.*?)/` match of the phone number. They are modelled concretely.
  `Collecting` is the generic "append until the first error" loop that
  `getClasses` uses.

The network, the HTML-to-table converter, `html.UnescapeString`, `url.Parse`
with `ResolveReference`, and the compiled regular expressions are inputs
(`Html.Libs`, `Web.Network`). Of a regular expression the model assumes only
its fixed number of capturing groups. An index that would make Go panic is a
precondition:

- `csvs[0][7][1]` and the other fixed cells of `getStudent`;
- `row[1]` and `row[3]` in `getClasses`;
- `matched[1]` in `getStudentsPerPage`;
- `url.Parse(link)` in `getStudentsPerPage`, which must succeed because a nil
  URL would be resolved otherwise.

Each precondition applies only on the path the code actually takes (the
`...Safe` predicates).

Choices the model makes, each as the code does it:

- **Login cookie.** `Login` accepts the response only when it sets exactly one
  cookie and that cookie is named `JSESSIONID` (session.go:165). It does not
  look the session cookie up by name among several cookies. A response that
  also sets an unrelated cookie is refused (`Web.LoginRefusesExtraCookies`).
- **Logout.** `Logout` clears the login state only when the logout round trip
  succeeds (session.go:196-201). It does not clear it unconditionally.
- **Pattern mismatches.** A class-event cell or a phone-number cell that does
  not match its pattern leaves the field empty. It is not an error.
- **Partial results.** `getStudentsPerPage` returns the students read before a
  failure. `getStudentsOfClass` drops the failing page's students but keeps
  those of earlier pages. `GetCurrentCategoriesAndClasses` keeps the
  categories read before a failure.
- **No concurrency.** Every fetch is sequential. The code has no concurrent
  detail fetches.

## Model

| member | source | states |
|---|---|---|
| Web.LoginVerdict | session.go:159-168 | the login response is accepted iff its `Location` ends with the main-page path and it sets exactly one cookie, named JSESSIONID; a wrong redirect is reported as RedirectMismatch before cookies are looked at; a right redirect with any other cookies is NoSessionCookie |
| Web.LoginAcceptsSessionRedirect | session.go:159-168 | any location ending with the main-page path plus a single JSESSIONID cookie is accepted |
| Web.LoginRefusesExtraCookies | session.go:165-168 | a response with two or more cookies is refused, even when one of them is JSESSIONID |
| SessionSpec.LoginOutcome | session.go:133-176 | Login succeeds iff the login URL parses, the round trip succeeds and the verdict accepts; on success the cookies are exactly the response's, one JSESSIONID cookie; an unparsable URL fails with BadUrl, a failed round trip with Transport, and a refused response with the verdict's error |
| SessionSpec.LoginNeedsMainRedirect | session.go:159-162 | a response that does not redirect to the main page fails with RedirectMismatch whatever cookies it sets |
| SessionSpec.LogoutOutcome | session.go:179-204 | a logged-out session gets no error and sends nothing; a logged-in one succeeds iff the logout URL parses and the round trip succeeds; otherwise the error is BadUrl or Transport respectively |
| SessionSpec.SearchIds | session.go:262-268 | the ids are group 1 of the matches in order, up to the first match without exactly two entries, where the loop stops without error |
| SessionSpec.SearchIdsAll | session.go:260-268 | when every match has one group, no match is skipped: the ids are group 1 of every match |
| SessionSpec.Search | session.go:214-272 | an empty value is refused with EmptySearchValue before the login state is looked at; then NotLoggedIn; a failed search request gives its error with no ids; a fetched result page gives SearchIds of its matches and no error; an error always comes with no ids |
| SessionSpec.SearchReturnsEveryMatch | session.go:245-268 | a successful search returns group 1 of every match on the result page, in page order |
| SessionSpec.StudentById | session.go:347-378 | NotLoggedIn when logged out; succeeds iff logged in and the page is fetched; a fetch error is passed through; the student is the one parsed from the page |
| SessionSpec.CategoryById | session.go:381-421 | NotLoggedIn when logged out; a category returned carries the requested id |
| SessionSpec.CategoryPageRule | session.go:409-416 | GetCategory succeeds iff logged in, the page is fetched and it has exactly 2 tables, 6 rows in the first and 4 cells in its row 2; a fetch error is passed through, a layout mismatch is CategoryShape; the name is cell 1 of that row |
| SessionSpec.CategoriesCountLinks | session.go:428-435 | getCategories gets through every linked id exactly when it returns no error |
| SessionSpec.CategoriesOnePerLink | session.go:426-435 | the k-th category returned is what GetCategory returns for the k-th id linked from the page |
| SessionSpec.CategoriesStopAtFailedLink | session.go:431-433 | on error, the categories returned are those before the first id GetCategory fails on, and the error is that failure |
| SessionSpec.CategoriesNext | session.go:428-435 | one loop iteration: a failing id ends the result with its error; a succeeding one appends its category and continues with the next id |
| SessionSpec.CategoriesAndClasses | session.go:475-508 | NotLoggedIn with nothing when logged out; a failed fetch of the listing page gives its error with no categories and no classes; otherwise the categories are getCategories's, a category failure ends it with no classes and that error, and once every category is read the classes and error are getClasses's on the same page; classes are returned only when every linked category was read |
| SessionSpec.StudentsCountRows | session.go:560-579 | getStudentsPerPage gets through every data row exactly when it returns no error |
| SessionSpec.StudentsOnePerRow | session.go:560-578 | the k-th student returned is what GetStudent returns for the id in the k-th data row's link, and that row's link matched |
| SessionSpec.StudentsStopAtFailedRow | session.go:574-576 | on error, the students returned are those before the first row whose GetStudent fails, and the error is that failure |
| SessionSpec.StudentsPerPageNext | session.go:560-579 | one loop iteration: the row is safe to index, and GetStudent either ends the result with its error or appends its student |
| SessionSpec.StudentsOfListPage | session.go:522-583 | NotLoggedIn with no students when logged out; a failed page fetch or a page that is not one table gives that error with no students; otherwise the row loop's result |
| SessionSpec.LinksSplitSafe | session.go:588-594 | the pages loop that never panics over xs followed by ys never panics over xs, nor over ys when xs succeeds |
| SessionSpec.StudentsOfPagesStopAtFailedPage | session.go:588-594 | a failing page in xs is the result over xs followed by ys; ys is never read |
| SessionSpec.StudentsOfPagesInLinkOrder | session.go:588-594 | when xs succeeds, the students over xs followed by ys are those of xs followed by what ys gives |
| SessionSpec.PagesNext | session.go:588-594 | one loop iteration: a failing page ends the result with its error and its own students dropped; a succeeding one appends all its students |
| SessionSpec.StudentsOfClass | session.go:600-631 | NotLoggedIn with no students when logged out; a failed fetch of the class's first list page gives its error with no students; otherwise the page loop over the links on that page |
| SessionSpec.ClassesNext | session.go:641-648 | one loop iteration of GetCurrentStudents: a failing class ends the result with its error; a succeeding one appends all its students |
| SessionSpec.StudentsOfClassesSucceed | session.go:641-648 | the loop over the classes succeeds iff GetStudentsOfClass succeeds on every class |
| SessionSpec.CurrentStudents | session.go:634-651 | NotLoggedIn with no students when logged out |
| SessionSpec.LoggedOutSendsNothing | session.go:355-358 | every data operation of a logged-out session fails with NotLoggedIn (the same guard is at 390, 480, 532, 606) and its result is the same for any network; Logout is a no-op; SearchStudent does not depend on the network either |
| Parsers.EventOf | session.go:289-307 | a link cell or status cell that does not match with four entries leaves its three fields empty |
| Parsers.EventsOfRows | session.go:288-310 | one event per row, in row order |
| Parsers.ClassEvents | session.go:284-313 | one event per row after the header, the k-th from row k + 1 |
| Parsers.ParseClassEvents | session.go:284-313 | the loop yields one event per row after the header, each from its row, and never an error |
| Parsers.PhoneNumberOf | session.go:328-333 | the phone number is the text before the first `/` when no newline comes before it, and empty otherwise; it never holds `/` or a newline |
| Parsers.ParseStudent | session.go:315-344 | class events are read only when a fourth table exists: one per row after its header, each from its row |
| Parsers.NameTrimIsCutset | session.go:323 | the name rule trims the characters `<`, `b`, `>`, not the prefix `<b>`: a bold name starting with `b` loses that letter |
| Parsers.CategoryFromPage | session.go:409-416 | accepted iff the category layout holds; the requested id and cell [0][2][1] as name; otherwise CategoryShape |
| Parsers.TableRows | session.go:443-446 | the rows of a table after its header, each with its table and row index |
| Parsers.DataRowsExact | session.go:442-446 | the rows getClasses visits are exactly the non-header rows, each where it says it is |
| Parsers.DataRowsOrdered | session.go:442-446 | getClasses visits rows in strictly increasing (table, row) order |
| Parsers.ClassesOnePerRow | session.go:440-472 | one class per non-header row in table-then-row order: class id from cell 1, name from link group 3 without the midnight suffix, instance and category ids from groups 1 and 2, status from cell 3; it stops at the first row whose link cell does not match, with ClassParse naming that table and row |
| Parsers.ClassNameDropsMidnight | session.go:459 | a class name followed by ` 00:00:00.0` loses exactly that suffix |
| Parsers.ParseClassRow | session.go:448-465 | one row of getClasses gives its class or its ClassParse error |
| Parsers.ParseClasses | session.go:440-472 | the nested loop returns what the getClasses specification gives |
| Parsers.ClassesSplitTable | session.go:442-443 | table i's rows come first among those of tables i and after |
| Parsers.ClassesAfterTable | session.go:442-467 | after table i, the outer loop either stops with table i's error or continues with the following tables |
| Parsers.ParseTableClasses | session.go:443-466 | the inner loop appends the classes of table i to those gathered so far, or stops at its first failing row |
| Parsers.FirstGroups | session.go:515-517 | group 1 of every match, one per match, in order |
| Parsers.ParsePageLinks | session.go:510-520 | one link per page-index match, in document order, each its group 1 |
| Parsers.StudentListRows | session.go:552-564 | the list page must be exactly one table (else StudentListShape); its rows after the header, in order |
| GoStrings.HasSuffixAppend | session.go:159 | every string ending with the suffix passes the HasSuffix test |
| GoStrings.TrimLeft | session.go:323 | the result is a suffix of the input; everything removed is in the cutset; the result does not start with a cutset character |
| GoStrings.TrimLeftUnique | session.go:323 | TrimLeft removes exactly the longest prefix made of cutset characters |
| GoStrings.TrimLeftIdempotent | session.go:323 | trimming twice is trimming once |
| GoStrings.ReplaceAbsent | session.go:459 | a string without the pattern is unchanged |
| GoStrings.ReplaceAfterClean | session.go:459 | a prefix with no occurrence starting in it is kept and only the rest is rewritten |
| GoStrings.DeleteShortens | session.go:459 | deleting a non-empty pattern never lengthens the string |
| GoStrings.TextBeforeSlash | session.go:328-333 | the text before the first `/` when no newline precedes it; otherwise no match |
| Collecting.CollectStep | session.go:442-467 | one iteration of an "append until first error" loop, as a loop invariant uses it |
| Collecting.CollectHead | session.go:442-467 | the same step at the head of what remains |
| Collecting.CollectSucceeds | session.go:442-467 | the loop ends without error exactly when every step succeeds |
| Collecting.CollectAppend | session.go:442-467 | the loop over xs + ys runs over xs, then over ys only if xs had no error |
| Collecting.CollectableAppend | session.go:442-467 | the loop over xs + ys never panics when its run over xs does not, nor its run over ys after an error-free xs |
| Collecting.CollectThen | session.go:442-467 | the outer loop continues with the remaining rows after a block of rows without error |
| Collecting.CollectOneEach | session.go:442-467 | with single-value steps, the k-th value is the k-th step's, and an error is the first failing step's |
| GoStrings.HasSuffix | session.go:159 | strings.HasSuffix: true iff the string ends with the suffix; its use is stated by HasSuffixAppend and LoginVerdict |
| GoStrings.ReplaceAll | session.go:459 | strings.Replace with n = -1 and a non-empty pattern, scanning left to right without rescanning replacements; no contract of its own, its properties are ReplaceAbsent, ReplaceAfterClean, DeleteShortens and ClassNameDropsMidnight |
| Parsers.ClassOfRow | session.go:448-465 | a row gives a class iff its link cell matches with four entries, else ClassParse naming its table and row; the class has the row's cell 1 as id and cell 3 as status |
| Parsers.Classes | session.go:440-472 | getClasses as the append-until-first-error loop over the data rows; no contract of its own, characterised by ClassesOnePerRow, DataRowsExact and DataRowsOrdered |
| SessionSpec.Fetch | session.go:245-258 | a request to an unparsable URL fails with BadUrl and sends nothing; otherwise it succeeds iff the round trip succeeds, gives the response body, and a transport failure is passed on as Transport |
| SessionSpec.CategoriesOf | session.go:426-435 | the loop of getCategories over the linked ids; no contract of its own, characterised by CategoriesCountLinks, CategoriesOnePerLink and CategoriesStopAtFailedLink |
| SessionSpec.Categories | session.go:423-438 | getCategories: the loop over the ids linked from the page; no contract of its own, characterised by the CategoriesOf lemmas |
| SessionSpec.ListPageRows | session.go:537-564 | the rows of a student list page, fetched at the link resolved against the server URL: a fetch error is passed through, otherwise the page's one-table rule and rows as StudentListRows states |
| SessionSpec.StudentsOfRows | session.go:560-579 | the row loop of getStudentsPerPage; no contract of its own, characterised by StudentsCountRows, StudentsOnePerRow and StudentsStopAtFailedRow |
| SessionSpec.StudentsOfLinks | session.go:588-594 | the page loop of getStudentsOfClass; no contract of its own, characterised by LinksSplitSafe, StudentsOfPagesStopAtFailedPage and StudentsOfPagesInLinkOrder |
| SessionSpec.StudentsOfPages | session.go:585-597 | getStudentsOfClass: the page loop over the links found on the page; no contract of its own, characterised by the StudentsOfLinks lemmas |
| SessionSpec.StudentsOfClasses | session.go:641-648 | the class loop of GetCurrentStudents; no contract of its own, characterised by ClassesNext and StudentsOfClassesSucceed |
| Collecting.Collect | session.go:442-467 | the append-until-first-error loop shape; no contract of its own, characterised by the Collecting lemmas |
| Web.LoginForm | session.go:140-145 | the six login form fields, the user name sent as "user,company"; no contract of its own, used by LoginRequest |
| Web.SearchForm | session.go:236-243 | the eight search form fields, with the search kind and value and 20 records a page; no contract of its own, used by Search |
| SessionSpec.LoginRequest | session.go:147-152 | the login POST to the login URL with the login form and no cookies (it goes straight to the transport); no contract of its own, used by LoginOutcome |
| SessionSpec.LogoutRequest | session.go:187-194 | the logout GET to the logout URL carrying the jar's cookies; no contract of its own, used by LogoutOutcome |
| SessionSpec.StudentUrl | session.go:360 | the student page URL, the viewStudent URL followed by `?student.id=` and the id; no contract of its own, used by StudentById |
| SessionSpec.CategoryUrl | session.go:395 | the category page URL, the viewCategory URL followed by the id; no contract of its own, used by CategoryById |
| SessionSpec.ClassListUrl | session.go:611 | the first student list page of a class, the listStudentsOfClass URL followed by the class instance id; no contract of its own, used by StudentsOfClass |
| SessionSpec.ListingPage | session.go:485-496 | the GET of the category-and-class listing page; no contract of its own, its outcomes are stated by CategoriesAndClasses |
| SessionSpec.CategoryIds | session.go:424-426 | the ids getCategories visits: one per category-link match, in page order, each its group 1 |
| Parsers.PageLinks | session.go:510-520 | the links getStudentsOfClass visits: one per page-index match, in document order, each its group 1 |
| SessionSpec.RowStudent | session.go:570-574 | GetStudent on the id in a student-list row's matched link; no contract of its own, used by the StudentsOfRows lemmas |
| Ming800.Session.constructor | session.go:110 | a fresh session holds its four strings, is logged out, and has no URLs and an empty jar |
| Ming800.Session.NewSession | session.go:93-130 | fails with BadUrl iff the server URL does not parse, and then has no URLs; otherwise its actions are exactly those of the fixed table, each resolved against the server URL; always logged out with an empty jar |
| Ming800.Session.Login | session.go:133-176 | on an accepted response the session is logged in and the JSESSIONID value is stored in the jar; on any failure neither the login state nor the jar changes; the URLs never change |
| Ming800.Session.Logout | session.go:179-204 | the error is LogoutOutcome's; the session stays logged in iff it was and the logout failed; the URLs and jar are kept |
| Ming800.Session.SearchStudent | session.go:214-272 | the loop returns what Search specifies |
| Ming800.Session.SearchStudentByName | session.go:275-277 | a search with kind "byName" |
| Ming800.Session.SearchStudentByPhoneNumber | session.go:280-282 | a search with kind "byEmail" |
| Ming800.Session.GetStudent | session.go:347-378 | returns StudentById's student, or its error with the zero student |
| Ming800.Session.GetCategory | session.go:381-421 | returns CategoryById's category, or its error with the zero category |
| Ming800.Session.GetCategories | session.go:423-438 | the loop returns what the getCategories specification gives |
| Ming800.Session.GetCurrentCategoriesAndClasses | session.go:475-508 | returns what CategoriesAndClasses specifies |
| Ming800.Session.GetStudentsPerPage | session.go:522-583 | the loop returns what StudentsOfListPage specifies |
| Ming800.Session.GetStudentsOfPages | session.go:585-597 | the loop over the page links returns what StudentsOfPages specifies |
| Ming800.Session.GetStudentsOfClass | session.go:600-631 | returns what StudentsOfClass specifies |
| Ming800.Session.GetCurrentStudents | session.go:634-651 | returns what CurrentStudents specifies |
| Ming800.Session.GetStudentsOfClasses | session.go:641-648 | the loop over the classes returns what StudentsOfClasses specifies |

## Left out

- HTTP itself is not modelled: headers, status codes, body reading and closing, and transport details. A round trip and its body read are one call of the `Network` function. A failure of either is `Transport`.
- The cookie jar is a map from cookie name to value, with no path, domain or expiry. Cookies the server sets during data fetches are not stored; only Login changes the jar. The login request carries no cookies, as with `http.DefaultTransport`.
- The network is a function of the request: the model assumes the server answers the same request the same way every time, so, for example, a category id linked twice is fetched twice with the same result.
- `cookiejar.New` never fails, so NewSession's error path for it is not modelled.
- The "Student ID not found." console message of SearchStudent is not modelled.
- The `len(row) < 0` check in getStudentsPerPage (session.go:566) can never be true, so it is not modelled.
- HTML-to-table conversion, entity unescaping, URL parsing and resolution, and regular-expression matching are library calls. They are inputs, constrained only by the group counts of the patterns.
- Ming800.Session: reading an action URL of a session whose NewSession failed is not modelled as a crash. Go would dereference a nil URL; the model reads the empty string through `Web.Lookup`.
- The walker, the processor, the concurrent detail fetches and the other files of the repository are not part of this model.
- SessionSpec.CategoryById: its own contract states only the login guard and the id. The full acceptance rule is stated in `SessionSpec.CategoryPageRule`.
- SessionSpec.StudentsOfListPage: its own contract states the login guard, the fetch and shape errors, and that a good page gives the row loop's result. Which students that loop returns is stated by the StudentsOfRows lemmas, not by this contract.
- SessionSpec.StudentsOfClass: its own contract states the login guard, the fetch error, and that a fetched page gives the page loop's result. Which students that loop returns is stated by the StudentsOfLinks lemmas, not by this contract.
- SessionSpec.CurrentStudents: its own contract states only the login guard. What it returns is stated by ClassesNext and StudentsOfClassesSucceed.
- GoStrings.ReplaceAll: only a non-empty pattern is modelled, because the one call (session.go:459) passes the fixed pattern ` 00:00:00.0`; Go's empty-pattern behaviour is not modelled.
- GoStrings: a Go string is read as its runes, so the text is taken to be valid UTF-8. The cutset and patterns used are ASCII, where this agrees with Go's byte-wise operations.
