/**
 * The library calls the scraper makes but whose code is not part of this
 * model, as uninterpreted inputs: the HTML-to-table converter
 * (htmlhelper.TablesToCSVs), html.UnescapeString, url.Parse and
 * URL.ResolveReference, and the compiled regular expressions. The only thing
 * assumed about a regular expression is what Go's regexp package guarantees
 * about the shape of its answer: a fixed number of submatches per match.
 */
module Html {
  import opened Wrappers

  /** One table cell's raw inner markup. */
  type Cell = string
  /** A table row: its cells in document order. */
  type Row = seq<Cell>
  /** A table: its rows in document order (row 0 is the header). */
  type Table = seq<Row>
  /** Every table of a page, in document order. */
  type Tables = seq<Table>

  /**
   * Regexp.FindStringSubmatch: None is Go's nil (no match); otherwise the
   * whole match at index 0 followed by one entry per capturing group.
   */
  type Finder = string -> Option<seq<string>>

  /** Regexp.FindAllStringSubmatch(s, -1): one submatch slice per match, in document order. */
  type AllFinder = string -> seq<seq<string>>

  /** Every match of `find` has exactly `groups` capturing groups. */
  ghost predicate Arity(find: Finder, groups: nat) {
    forall s :: find(s).Some? ==> |find(s).value| == groups + 1
  }

  /** Every match reported by `findAll` has exactly `groups` capturing groups. */
  ghost predicate AllArity(findAll: AllFinder, groups: nat) {
    forall s, k :: 0 <= k < |findAll(s)| ==> |findAll(s)[k]| == groups + 1
  }

  /** The compiled patterns of session.go, one per use site (session.go line of use). */
  datatype Patterns = Patterns(
    /** student id in a search result page, searched page-wide, one group (219) */
    searchId: AllFinder,
    /** class-event link cell: class instance id, category id, class name (291) */
    eventLink: Finder,
    /** class-event status cell: status, begin date, optional end date (300) */
    eventStatus: Finder,
    /** category id in the category listing, searched page-wide, one group (424) */
    categoryLink: AllFinder,
    /** class link cell: class instance id, category id, class name (451) */
    classLink: Finder,
    /** href of a page-index anchor, searched page-wide, one group (511) */
    pageLink: AllFinder,
    /** student id in a student-list link cell, one group (558) */
    studentLink: Finder)
  {
    /** The group counts Go's regexp engine gives these patterns. */
    ghost predicate Valid() {
      && AllArity(searchId, 1)
      && Arity(eventLink, 3)
      && Arity(eventStatus, 3)
      && AllArity(categoryLink, 1)
      && Arity(classLink, 3)
      && AllArity(pageLink, 1)
      && Arity(studentLink, 1)
    }
  }

  /** The foreign libraries, as functions. */
  datatype Libs = Libs(
    /** htmlhelper.TablesToCSVs */
    tablesOf: string -> Tables,
    /** html.UnescapeString */
    unescape: string -> string,
    /** url.Parse (and so http.NewRequest) accepts the string */
    validUrl: string -> bool,
    /** base.ResolveReference(ref).String() for a parsed base and reference */
    resolve: (string, string) -> string,
    pats: Patterns)
}
