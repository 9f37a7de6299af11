/** The values the scraper returns, and its errors. */
module Records {

  /** One enrollment event in a student's class history. */
  datatype ClassEvent = ClassEvent(
    classInstanceId: string,
    categoryId: string,
    className: string,
    /** e.g. transferred in or out */
    status: string,
    beginTime: string,
    endTime: string)

  /** A class as listed in the category-and-class listing. */
  datatype Class = Class(
    /** the human readable id */
    classId: string,
    className: string,
    /** the internal id used in URLs */
    classInstanceId: string,
    categoryId: string,
    status: string)

  datatype Category = Category(id: string, name: string)

  datatype Student = Student(
    name: string,
    /** the human readable student id */
    sid: string,
    status: string,
    comments: string,
    phoneNumber: string,
    receiptNumber: string,
    classEvents: seq<ClassEvent>)

  /** Every way an operation of the session can fail. */
  datatype Error =
    | BadUrl(url: string)              // url.Parse or http.NewRequest rejected a URL
    | Transport(cause: string)         // the round trip or the body read failed
    | RedirectMismatch                 // login: the redirect target is not the main page
    | NoSessionCookie                  // login: not exactly one cookie, named JSESSIONID
    | NotLoggedIn
    | EmptySearchValue
    | CategoryShape                    // the category page lacks its fixed table layout
    | StudentListShape                 // a student list page is not exactly one table
    | ClassParse(table: nat, row: nat) // a class row's link cell does not match
}
