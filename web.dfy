/**
 * The HTTP side of the session as data: the requests it sends, the responses
 * it reads, the server as an oracle, the endpoint table, and the rule by
 * which a login response is accepted.
 */
module Web {
  import opened Wrappers
  import opened GoStrings
  import opened Records

  datatype Cookie = Cookie(name: string, value: string)

  /**
   * The cookie jar, for the one server host: cookie values by name (a
   * cookie set again under the same name replaces the old value).
   */
  type Jar = map<string, string>

  /** An HTTP request: verb, absolute URL, url-encoded form fields (POST) and the cookies sent. */
  datatype Request = Request(verb: string, url: string, form: map<string, string>, cookies: Jar)

  /** What the session reads from a response: the Location header, the Set-Cookie cookies, the body. */
  datatype Response = Response(location: string, cookies: seq<Cookie>, body: string)

  /**
   * The server, seen through http.DefaultTransport.RoundTrip or client.Do
   * followed by ioutil.ReadAll: a response, or the error text of a failed
   * round trip or body read.
   */
  type Network = Request -> Result<Response, string>

  /** Go's index of a string map: a missing key reads as the empty string. */
  function Lookup(m: map<string, string>, key: string): string {
    if key in m then m[key] else ""
  }

  /** The endpoint paths, by action name, resolved against the server URL when a session is made. */
  const RawUrls: map<string, string> := map[
    "login" := "/j_spring_security_check",
    "loginRedirect" := "/standard/mainController.controller",
    "logout" := "/j_spring_security_logout",
    "mainControlloer" := "/standard/mainController.controller",
    "studentSearch" := "/edu/student/search.action",
    "viewStudent" := "/edu/student/basicinfo/viewstudent.action",
    "listCategoryAndClass" := "/edu/base/clazzInstance/listCategoryAndClazzInstanceForClazzInstance.action",
    "viewCategory" := "/edu/base/clazz/viewClazz.action?clazz.id=",
    "listStudentsOfClass" := "/edu/student/basicinfo/liststudentbyclazzinstance.action?clazzInstance.id="]

  /** The name of the server's session cookie. */
  const SessionCookieName: string := "JSESSIONID"

  /** The fields of the login form; the user name is sent as "user,company". */
  function LoginForm(user: string, company: string, password: string): map<string, string> {
    map[
      "dispatcher" := "bpm",
      "j_username" := user + "," + company,
      "j_yey" := company,
      "j_username0" := user,
      "j_password" := password,
      "button" := "登录"]
  }

  /** The fields of the student search form; results come 20 to a page. */
  function SearchForm(searchBy: string, value: string): map<string, string> {
    map[
      "searchName" := "",
      "studentTraining.id" := "",
      "action" := "search",
      "searchBy" := searchBy,
      "searchValue" := value,
      "pageEntity.pageRecords" := "20",
      "dispatcher" := "search",
      "studentTrainingName" := ""]
  }

  /**
   * Login's acceptance rule on the (unfollowed) redirect response. The
   * redirect target is checked first; then the response must carry exactly
   * one cookie, and it must be the session cookie.
   */
  function LoginVerdict(resp: Response): (r: Option<Error>)
    ensures r.None? <==>
      HasSuffix(resp.location, RawUrls["loginRedirect"]) &&
      |resp.cookies| == 1 && resp.cookies[0].name == SessionCookieName
    ensures !HasSuffix(resp.location, RawUrls["loginRedirect"]) ==> r == Some(RedirectMismatch)
    ensures (HasSuffix(resp.location, RawUrls["loginRedirect"]) &&
             !(|resp.cookies| == 1 && resp.cookies[0].name == SessionCookieName)) ==>
      r == Some(NoSessionCookie)
    ensures r.Some? ==> r.value == RedirectMismatch || r.value == NoSessionCookie
  {
    if !HasSuffix(resp.location, RawUrls["loginRedirect"]) then Some(RedirectMismatch)
    else if |resp.cookies| != 1 || resp.cookies[0].name != SessionCookieName then Some(NoSessionCookie)
    else None
  }

  /** A redirect to the main page carrying only the session cookie is accepted. */
  lemma LoginAcceptsSessionRedirect(prefix: string, session: string, body: string)
    ensures LoginVerdict(Response(prefix + RawUrls["loginRedirect"], [Cookie(SessionCookieName, session)], body)) == None
  {
    HasSuffixAppend(prefix, RawUrls["loginRedirect"]);
  }

  /**
   * The session cookie alongside any other cookie is refused, wherever it
   * stands in the list.
   */
  lemma LoginRefusesExtraCookies(resp: Response)
    requires |resp.cookies| >= 2
    ensures LoginVerdict(resp).Some?
  {
  }
}
