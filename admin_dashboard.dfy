/**
 * The admin dashboard component: the CSV export of the listed contacts,
 * the "Showing X to Y of Z contacts" label, and the state changes of
 * signing in, signing out and receiving a page of contacts.
 */
module AdminDashboard {
  import opened Wrappers
  import opened JsText
  import opened JsParseInt
  import opened ContactListing

  /** A contact as the listing endpoint sends it to the dashboard. */
  datatype ContactRecord = ContactRecord(
    id: string, name: string, email: string, subject: string, message: string,
    ipAddress: Option<string>, createdAt: string)

  /** The first line of the export. */
  const CsvHeader := "Name,Email,Subject,Message,Date,IP Address"

  /** Rows per page the dashboard asks for (`limit=10`). */
  const PageSize := 10

  // ---------------------------------------------------------------------
  // CSV export

  /** A field wrapped in double quotes. */
  function Quote(s: string): string {
    "\"" + s + "\""
  }

  /** `s.replace(/"/g, '""')`: every double quote doubled. */
  function Escape(s: string): (r: string)
    ensures |r| >= |s|
    ensures (forall i :: 0 <= i < |s| ==> s[i] != '"') ==> r == s
  {
    if s == [] then ""
    else (if s[0] == '"' then "\"\"" else [s[0]]) + Escape(s[1..])
  }

  /** `contact.ipAddress || 'N/A'`. */
  function IpCell(ip: Option<string>): (r: string)
    ensures r != ""
    ensures Truthy(ip) ==> r == ip.value
    ensures !Truthy(ip) ==> r == "N/A"
  {
    if Truthy(ip) then ip.value else "N/A"
  }

  /**
   * The values a row carries, in column order: name, e-mail, subject,
   * message, the creation date as `formatDate` renders it, and the address.
   */
  function RowValues(c: ContactRecord, formatDate: string -> string): (r: seq<string>)
    ensures |r| == 6
    ensures r[0] == c.name && r[1] == c.email && r[2] == c.subject && r[3] == c.message
    ensures r[4] == formatDate(c.createdAt) && r[5] == IpCell(c.ipAddress)
  {
    [c.name, c.email, c.subject, c.message, formatDate(c.createdAt), IpCell(c.ipAddress)]
  }

  /**
   * One row of the export: the six values each wrapped in quotes and
   * joined by commas. Only the message has its quotes doubled.
   */
  function CsvRow(c: ContactRecord, formatDate: string -> string): string {
    Join([Quote(c.name), Quote(c.email), Quote(c.subject), Quote(Escape(c.message)),
          Quote(formatDate(c.createdAt)), Quote(IpCell(c.ipAddress))], ",")
  }

  /** The rows of `contacts`, in list order. */
  function CsvRows(contacts: seq<ContactRecord>, formatDate: string -> string): (r: seq<string>)
    ensures |r| == |contacts|
    ensures forall i :: 0 <= i < |contacts| ==> r[i] == CsvRow(contacts[i], formatDate)
  {
    seq(|contacts|, i requires 0 <= i < |contacts| => CsvRow(contacts[i], formatDate))
  }

  /** The exported text: the header and one row per contact, joined by line feeds. */
  function ExportCsv(contacts: seq<ContactRecord>, formatDate: string -> string): string {
    Join([CsvHeader] + CsvRows(contacts, formatDate), "\n")
  }

  /**
   * With no contacts the export is the header alone; each further contact
   * adds one line feed and its row at the end. So the export has exactly
   * one row per contact, in list order, and no trailing line feed.
   */
  lemma ExportAppend(contacts: seq<ContactRecord>, c: ContactRecord, formatDate: string -> string)
    ensures ExportCsv([], formatDate) == CsvHeader
    ensures ExportCsv(contacts + [c], formatDate) == ExportCsv(contacts, formatDate) + "\n" + CsvRow(c, formatDate)
  {
    assert [CsvHeader] + CsvRows([], formatDate) == [CsvHeader];
    var lines := [CsvHeader] + CsvRows(contacts + [c], formatDate);
    assert lines[..|lines| - 1] == [CsvHeader] + CsvRows(contacts, formatDate);
  }

  /**
   * The body of a quoted field after its opening quote, read as RFC 4180
   * section 2 rules 5 and 7 read it: a doubled quote stands for one quote
   * and a single quote ends the field. The result is the field's value and
   * the text after the closing quote; `None` if the field never ends.
   */
  function ReadBody(s: string): (r: Option<(string, string)>)
    ensures r.Some? ==> |r.value.1| < |s|
  {
    if s == [] then None
    else if s[0] == '"' then
      if |s| >= 2 && s[1] == '"' then
        match ReadBody(s[2..])
        case None => None
        case Some((v, rest)) => Some(("\"" + v, rest))
      else Some(("", s[1..]))
    else
      match ReadBody(s[1..])
      case None => None
      case Some((v, rest)) => Some(([s[0]] + v, rest))
  }

  /** A quoted field at the start of `s`: its value and what follows it. */
  function ReadField(s: string): (r: Option<(string, string)>)
    ensures r.Some? ==> |r.value.1| < |s|
  {
    if s == [] || s[0] != '"' then None else ReadBody(s[1..])
  }

  /** A line of quoted fields separated by commas, read back into values. */
  function ReadRow(s: string): Option<seq<string>>
    decreases |s|
  {
    match ReadField(s)
    case None => None
    case Some((v, rest)) =>
      if rest == [] then Some([v])
      else if rest[0] != ',' then None
      else match ReadRow(rest[1..])
        case None => None
        case Some(vs) => Some([v] + vs)
  }

  /** Reading an escaped value back gives the value and leaves what follows. */
  lemma {:induction false} ReadEscaped(v: string, rest: string)
    requires rest == [] || rest[0] != '"'
    ensures ReadBody(Escape(v) + "\"" + rest) == Some((v, rest))
    decreases |v|
  {
    var s := Escape(v) + "\"" + rest;
    if v == [] {
      assert s == "\"" + rest;
      AfterPrefix("\"", rest);
    } else {
      ReadEscaped(v[1..], rest);
      var head := if v[0] == '"' then "\"\"" else [v[0]];
      var tail := Escape(v[1..]) + "\"" + rest;
      assert Escape(v) == head + Escape(v[1..]);
      Regroup(head, Escape(v[1..]), "\"", rest);
      AfterPrefix(head, tail);
      HeadAndTail(v);
    }
  }

  lemma Regroup<T>(a: seq<T>, b: seq<T>, c: seq<T>, d: seq<T>)
    ensures a + b + c + d == a + (b + c + d)
  {
  }

  lemma AfterPrefix<T>(a: seq<T>, b: seq<T>)
    ensures (a + b)[|a|..] == b
  {
  }

  lemma HeadAndTail<T>(s: seq<T>)
    requires s != []
    ensures [s[0]] + s[1..] == s
  {
  }

  /**
   * Round trip of the message column: the quoted, escaped message reads
   * back as the original message, whatever quotes it holds.
   */
  lemma FieldRoundTrip(v: string, rest: string)
    requires rest == [] || rest[0] != '"'
    ensures ReadField(Quote(Escape(v)) + rest) == Some((v, rest))
  {
    var body := Escape(v) + "\"" + rest;
    var s := Quote(Escape(v)) + rest;
    assert s == "\"" + body;
    assert s[0] == '"' && s[1..] == body;
    ReadEscaped(v, rest);
  }

  /** The cells of a row whose values are all escaped. */
  function EscapedCells(vs: seq<string>): (r: seq<string>)
    ensures |r| == |vs|
    ensures forall i :: 0 <= i < |vs| ==> r[i] == Quote(Escape(vs[i]))
  {
    seq(|vs|, i requires 0 <= i < |vs| => Quote(Escape(vs[i])))
  }

  /** A leading escaped field, a comma, then a readable row. */
  lemma ReadRowCons(v: string, tail: string)
    requires ReadRow(tail).Some?
    ensures ReadRow(Quote(Escape(v)) + "," + tail) == Some([v] + ReadRow(tail).value)
  {
    var rest := "," + tail;
    FieldRoundTrip(v, rest);
    assert Quote(Escape(v)) + "," + tail == Quote(Escape(v)) + rest;
    assert rest[1..] == tail;
  }

  lemma CellsCons(vs: seq<string>)
    requires vs != []
    ensures EscapedCells(vs) == [Quote(Escape(vs[0]))] + EscapedCells(vs[1..])
  {
  }

  /** A row of one escaped field. */
  lemma ReadSingle(v: string)
    ensures ReadRow(Quote(Escape(v))) == Some([v])
  {
    FieldRoundTrip(v, "");
    assert Quote(Escape(v)) + "" == Quote(Escape(v));
  }

  lemma {:induction false} ReadEscapedRow(vs: seq<string>)
    requires vs != []
    ensures ReadRow(Join(EscapedCells(vs), ",")) == Some(vs)
    decreases |vs|
  {
    var first := Quote(Escape(vs[0]));
    if |vs| == 1 {
      ReadSingle(vs[0]);
      assert EscapedCells(vs) == [first];
      assert vs == [vs[0]];
    } else {
      var others := EscapedCells(vs[1..]);
      var tail := Join(others, ",");
      assert Join(EscapedCells(vs), ",") == first + "," + tail by {
        CellsCons(vs);
        JoinCons(first, others, ",");
      }
      assert ReadRow(tail) == Some(vs[1..]) by {
        ReadEscapedRow(vs[1..]);
      }
      assert ReadRow(first + "," + tail) == Some(vs) by {
        ReadRowCons(vs[0], tail);
        assert [vs[0]] + vs[1..] == vs;
      }
    }
  }

  predicate NoQuote(s: string) {
    forall i :: 0 <= i < |s| ==> s[i] != '"'
  }

  /**
   * Every row is six quoted fields separated by commas: read back, it
   * gives the name, e-mail, subject, message, date and address. The
   * message may hold any quotes; the other columns are quoted without
   * escaping, so the row reads back only when they hold none.
   */
  lemma RowRoundTrip(c: ContactRecord, formatDate: string -> string)
    requires NoQuote(c.name) && NoQuote(c.email) && NoQuote(c.subject)
    requires NoQuote(formatDate(c.createdAt)) && NoQuote(IpCell(c.ipAddress))
    ensures ReadRow(CsvRow(c, formatDate)) == Some(RowValues(c, formatDate))
  {
    var vs := RowValues(c, formatDate);
    assert EscapedCells(vs) == [Quote(c.name), Quote(c.email), Quote(c.subject), Quote(Escape(c.message)),
                                Quote(formatDate(c.createdAt)), Quote(IpCell(c.ipAddress))];
    ReadEscapedRow(vs);
  }

  /**
   * A quote in the name is written as it is, so the row no longer reads
   * back as six fields: `a"b` becomes `"a"b"`, whose first field ends
   * after `a`.
   */
  lemma QuoteInNameBreaksRow(c: ContactRecord, formatDate: string -> string)
    requires c.name == "a\"b"
    ensures ReadRow(CsvRow(c, formatDate)).None?
  {
    var row := CsvRow(c, formatDate);
    var others := [Quote(c.email), Quote(c.subject), Quote(Escape(c.message)),
                   Quote(formatDate(c.createdAt)), Quote(IpCell(c.ipAddress))];
    assert [Quote(c.name), Quote(c.email), Quote(c.subject), Quote(Escape(c.message)),
            Quote(formatDate(c.createdAt)), Quote(IpCell(c.ipAddress))] == [Quote(c.name)] + others;
    JoinCons(Quote(c.name), others, ",");
    var rest := "b\"," + Join(others, ",");
    assert Quote(c.name) == "\"a\"b\"";
    assert row == "\"a\"b\"" + "," + Join(others, ",");
    assert row == "\"a\"" + rest;
    var body := "a\"" + rest;
    assert row[0] == '"' && row[1..] == body;
    assert body[1..] == "\"" + rest;
    assert ReadBody(body[1..]) == Some(("", rest));
    assert body[0] == 'a' && [body[0]] + "" == "a";
    assert ReadField(row) == Some(("a", rest));
  }

  // ---------------------------------------------------------------------
  // Pagination label

  /** The numbers of "Showing `from` to `to` of `total` contacts". */
  datatype RangeLabel = RangeLabel(from: int, to: int, total: nat)

  /**
   * The label under the table: shown only when there is more than one
   * page; it counts rows of ten from the current page.
   */
  function PaginationLabel(p: PageInfo): (r: Option<RangeLabel>)
    ensures r.Some? <==> p.totalPages > 1
    ensures r.Some? ==> r.value.total == p.totalContacts && r.value.to <= p.totalContacts
    ensures r.Some? && p.currentPage >= 1 ==> r.value.from >= 1 && r.value.to <= p.currentPage * PageSize
    ensures r.Some? ==>
      && r.value.from == (p.currentPage - 1) * PageSize + 1
      && r.value.to == Min(p.currentPage * PageSize, p.totalContacts)
  {
    if p.totalPages > 1 then
      Some(RangeLabel((p.currentPage - 1) * PageSize + 1, Min(p.currentPage * PageSize, p.totalContacts), p.totalContacts))
    else None
  }

  /**
   * For a page from the first to the last, with ten rows a page, the
   * label names exactly the rows listed: they are the contacts `from` to
   * `to` (counting from one) of the newest-first list.
   */
  lemma LabelMatchesRows<T>(newestFirst: seq<T>, page: int)
    requires 1 <= page <= CeilDiv(|newestFirst|, PageSize)
    ensures ListAt(newestFirst, page, PageSize).Listed?
    ensures var l := ListAt(newestFirst, page, PageSize);
      var shown := PaginationLabel(l.pagination);
      shown.Some? ==>
        && 1 <= shown.value.from <= shown.value.to <= |newestFirst|
        && l.items == newestFirst[shown.value.from - 1..shown.value.to]
  {
    var n := |newestFirst|;
    var tp := CeilDiv(n, PageSize);
    var skip := (page - 1) * PageSize;
    MulMonotone(page - 1, tp - 1, PageSize);
    assert skip < n;
    var to := Min(page * PageSize, n);
    assert to == skip + Min(PageSize, n - skip);
    var w := Window(newestFirst, skip, PageSize);
    assert w == newestFirst[skip..to];
  }

  /**
   * The same for the request the dashboard sends, `?page=${page}&limit=10`.
   */
  lemma LabelMatchesPage<T>(newestFirst: seq<T>, page: nat)
    requires 1 <= page <= CeilDiv(|newestFirst|, PageSize)
    ensures List(newestFirst, Some(ToDecimal(page)), Some("10")) == ListAt(newestFirst, page, PageSize)
    ensures var l := List(newestFirst, Some(ToDecimal(page)), Some("10"));
      var shown := PaginationLabel(l.pagination);
      && l.Listed?
      && (shown.Some? ==>
        && 1 <= shown.value.from <= shown.value.to <= |newestFirst|
        && l.items == newestFirst[shown.value.from - 1..shown.value.to])
  {
    QueryRoundTrip(page, DefaultPage);
    QueryRoundTrip(10, DefaultLimit);
    assert ToDecimal(10) == "10";
    LabelMatchesRows(newestFirst, page);
  }

  // ---------------------------------------------------------------------
  // Component state

  /** The answer to the sign-in request, or a request that failed outright. */
  datatype LoginReply =
    | NetworkError
    | LoginAnswer(ok: bool, success: bool, message: Option<string>, token: string)

  /** The answer to a listing request. */
  datatype ContactsReply =
    | ContactsFailed
    | ContactsAnswer(status: int, contacts: seq<ContactRecord>, pagination: PageInfo)

  /** The counters of the statistics cards. */
  datatype Stats = Stats(totalContacts: nat, todayContacts: nat, weekContacts: nat)

  const LoginFailed := "Login failed"
  const NetworkErrorMessage := "Network error. Please try again."

  /** `response.ok`: a status in the 200s. */
  predicate IsOk(status: int) {
    200 <= status < 300
  }

  /**
   * The dashboard's state; `storedToken` is the `adminToken` entry of the
   * browser's local storage.
   */
  class Dashboard {
    var isAuthenticated: bool
    var password: string
    var loginError: string
    var isLoading: bool
    var storedToken: Option<string>
    var contacts: seq<ContactRecord>
    var stats: Option<Stats>
    var pagination: Option<PageInfo>
    var currentPage: int

    /** Signed in only with a stored token; no request is left in flight. */
    predicate Valid()
      reads this
    {
      (isAuthenticated ==> storedToken.Some?) && !isLoading
    }

    /** Mounting: signed in iff a non-empty token is stored. */
    constructor(stored: Option<string>)
      ensures Valid()
      ensures isAuthenticated == Truthy(stored) && storedToken == stored
      ensures password == "" && loginError == "" && !isLoading
      ensures contacts == [] && stats.None? && pagination.None? && currentPage == 1
    {
      isAuthenticated := Truthy(stored);
      password := "";
      loginError := "";
      isLoading := false;
      storedToken := stored;
      contacts := [];
      stats := None;
      pagination := None;
      currentPage := 1;
    }

    /** The label under the table, when a page has been received. */
    function Label(): (r: Option<RangeLabel>)
      reads this
      ensures r == if pagination.Some? then PaginationLabel(pagination.value) else None
    {
      if pagination.Some? then PaginationLabel(pagination.value) else None
    }

    /**
     * Submitting the sign-in form: on an ok answer reporting success the
     * token is stored, the dashboard signs in and the password field is
     * cleared; otherwise the error shows the server's message, or "Login
     * failed" without one, or the network message when the request itself
     * failed. The form is usable again in every case.
     */
    method HandleLogin(reply: LoginReply)
      requires Valid()
      modifies this
      ensures Valid()
      ensures !isLoading
      ensures reply.LoginAnswer? && reply.ok && reply.success ==>
        && storedToken == Some(reply.token) && isAuthenticated
        && password == "" && loginError == ""
      ensures !(reply.LoginAnswer? && reply.ok && reply.success) ==>
        && storedToken == old(storedToken) && isAuthenticated == old(isAuthenticated)
        && password == old(password)
        && loginError == (if reply.NetworkError? then NetworkErrorMessage
                          else if Truthy(reply.message) then reply.message.value
                          else LoginFailed)
      ensures loginError != "" <==> !(reply.LoginAnswer? && reply.ok && reply.success)
      ensures contacts == old(contacts) && stats == old(stats)
      ensures pagination == old(pagination) && currentPage == old(currentPage)
    {
      isLoading := true;
      loginError := "";
      match reply {
        case NetworkError =>
          loginError := NetworkErrorMessage;
        case LoginAnswer(ok, success, message, token) =>
          if ok && success {
            storedToken := Some(token);
            isAuthenticated := true;
            password := "";
          } else {
            loginError := if Truthy(message) then message.value else LoginFailed;
          }
      }
      isLoading := false;
    }

    /**
     * Signing out: whatever became of the request to the server, the
     * stored token is removed and the dashboard forgets the signed-in
     * state, the contacts, the statistics and the pagination. The current
     * page number is kept.
     */
    method HandleLogout()
      requires Valid()
      modifies this
      ensures Valid()
      ensures storedToken.None? && !isAuthenticated
      ensures contacts == [] && stats.None? && pagination.None? && Label().None?
      ensures password == old(password) && loginError == old(loginError)
      ensures currentPage == old(currentPage) && isLoading == old(isLoading)
    {
      storedToken := None;
      isAuthenticated := false;
      contacts := [];
      stats := None;
      pagination := None;
    }

    /**
     * A listing answer for `page`: an ok answer replaces the contacts, the
     * pagination and the current page; a 401 signs out as above; any other
     * answer, or a failed request, changes nothing.
     */
    method ContactsLoaded(page: int, reply: ContactsReply)
      requires Valid()
      modifies this
      ensures Valid()
      ensures reply.ContactsAnswer? && IsOk(reply.status) ==>
        && contacts == reply.contacts && pagination == Some(reply.pagination) && currentPage == page
        && storedToken == old(storedToken) && isAuthenticated == old(isAuthenticated) && stats == old(stats)
      ensures reply.ContactsAnswer? && reply.status == 401 ==>
        && storedToken.None? && !isAuthenticated
        && contacts == [] && stats.None? && pagination.None? && currentPage == old(currentPage)
      ensures (reply.ContactsFailed? || (!IsOk(reply.status) && reply.status != 401)) ==>
        && contacts == old(contacts) && pagination == old(pagination) && currentPage == old(currentPage)
        && storedToken == old(storedToken) && isAuthenticated == old(isAuthenticated) && stats == old(stats)
      ensures password == old(password) && loginError == old(loginError) && isLoading == old(isLoading)
    {
      match reply {
        case ContactsFailed =>
        case ContactsAnswer(status, received, info) =>
          if IsOk(status) {
            contacts := received;
            pagination := Some(info);
            currentPage := page;
          } else if status == 401 {
            HandleLogout();
          }
      }
    }

    /** A statistics answer: an ok one replaces the counters, anything else is ignored. */
    method StatsLoaded(status: int, received: Stats)
      requires Valid()
      modifies this
      ensures Valid()
      ensures stats == if IsOk(status) then Some(received) else old(stats)
      ensures isAuthenticated == old(isAuthenticated) && storedToken == old(storedToken)
      ensures contacts == old(contacts) && pagination == old(pagination) && currentPage == old(currentPage)
      ensures password == old(password) && loginError == old(loginError) && isLoading == old(isLoading)
    {
      if IsOk(status) {
        stats := Some(received);
      }
    }
  }
}
