/** The download page behind the email's links: it checks the query, looks up
    one file slot of one application and answers with the stored file as an
    attachment, or with an error page. */
module Download {
  import opened Common
  import opened PhpValues
  import opened ScholarshipFunctions

  const BadRequestText := "The request was missing required query parameters."
  const NotFoundText := "The requested file is not in the database."
  const ServerErrorText := "There was a problem interacting with the database."

  /** The prefixes of the two log entries the page may write. */
  const SqlLogPrefix := "Database Error on Download Attempt: "
  const OtherLogPrefix := "Download error: "

  /** The four columns of a slot as the query returns them; NULL is `None`. */
  datatype StoredFile = StoredFile(filename: Option<string>, size: Option<string>, filetype: Option<string>, content: Option<string>)

  /** What running a query gives: a result set, `false`, or a thrown exception. */
  datatype QueryOutcome = Rows(rows: seq<StoredFile>) | QueryFalse | SqlException | OtherException

  /** The database as the page sees it: whether the connection opens, and what
      each query yields. */
  datatype Database = Database(connects: bool, run: string -> QueryOutcome)

  /** How the page ends: an error page and its status, the file, or a caught
      exception that was logged (what PHP does after that is not modelled). */
  datatype Response =
    | ErrorResponse(status: int, page: ErrorExit)
    | FileResponse(headers: seq<string>, body: string)
    | LoggedFailure(logPrefix: string)

  /** A NULL column interpolates as the empty string. */
  function NullText(v: Option<string>): string {
    if v.Some? then v.value else ""
  }

  /** All three parameters are present and the slot is between 0 and 4. */
  predicate RequestValid(query: map<string, string>) {
    "auth" in query && "file" in query && 0 <= IntVal(query["file"]) <= 4 && "pre" in query
  }

  /** The slot the query asks for, read with `intval`. */
  function Slot(query: map<string, string>): (k: nat)
    requires RequestValid(query)
    ensures k <= 4 && k == IntVal(query["file"])
  {
    IntVal(query["file"])
  }

  /** The download prefix: the scrubbed `pre` with every `%27`, then every
      single quote, removed. */
  function DisplayPrefix(scrubbed: string): (r: string)
    ensures '\'' !in r
  {
    var r := RemoveAll(RemoveAll(scrubbed, "%27"), "'");
    RemoveAllOneChar(RemoveAll(scrubbed, "%27"), '\'');
    r
  }

  /** A column selected under a fixed alias. */
  function Aliased(column: string, alias: string): string {
    "`" + column + "` AS `" + alias + "`"
  }

  /** The four columns of slot `k`, each under the name of its key. */
  function SelectList(k: nat): (r: seq<string>)
    ensures |r| == 4
  {
    var n := NatText(k);
    [Aliased("filename" + n, "filename"), Aliased("size" + n, "size"),
     Aliased("filetype" + n, "filetype"), Aliased("content" + n, "content")]
  }

  /** The query for slot `k` of the application with identifier `user`. */
  function SelectSql(user: string, k: nat): string {
    "SELECT " + Join(SelectList(k), ", ") + " FROM womenstudies WHERE `guid` = '" + user + "' LIMIT 1"
  }

  /** The headers of the attachment: its type, its length and a file name made
      of the prefix, a dot and the stored name. */
  function Headers(name: string, row: StoredFile): (h: seq<string>)
    ensures |h| == 3
    ensures h[0] == "Content-type: " + NullText(row.filetype)
    ensures h[1] == "Content-length: " + NullText(row.size)
    ensures StartsWith(h[2], "Content-Disposition: attachment; filename=\"" + name + ".")
    ensures EndsWith(h[2], "." + NullText(row.filename) + "\"")
  {
    var h := ["Content-type: " + NullText(row.filetype), "Content-length: " + NullText(row.size),
              "Content-Disposition: attachment; filename=\"" + name + "." + NullText(row.filename) + "\""];
    var head := "Content-Disposition: attachment; filename=\"" + name + ".";
    assert h[2] == head + (NullText(row.filename) + "\"");
    assert h[2][..|head|] == head;
    var tail := "." + NullText(row.filename) + "\"";
    assert h[2] == "Content-Disposition: attachment; filename=\"" + name + tail;
    assert h[2][|h[2]| - |tail|..] == tail;
    h
  }

  /** The page's response to a query. */
  function DownloadResponse(query: map<string, string>, db: Database, scrub: string -> string): (r: Response)
    ensures (r.ErrorResponse? && r.status == 400) <==> !RequestValid(query)
    ensures r.ErrorResponse? ==> r.status in {400, 404, 500} && r.page.exitCode == r.status
    ensures r.FileResponse? ==> RequestValid(query) && db.connects
  {
    if !RequestValid(query) then ErrorResponse(400, GenerateErrorPage(400, BadRequestText))
    else if !db.connects then LoggedFailure(SqlLogPrefix)
    else
      var user := scrub(query["auth"]);
      var name := DisplayPrefix(scrub(query["pre"]));
      match db.run(SelectSql(user, Slot(query)))
      case Rows(rows) =>
        if |rows| == 0 then ErrorResponse(404, GenerateErrorPage(404, NotFoundText))
        else FileResponse(Headers(name, rows[0]), NullText(rows[0].content))
      case QueryFalse => ErrorResponse(500, GenerateErrorPage(500, ServerErrorText))
      case SqlException => LoggedFailure(SqlLogPrefix)
      case OtherException => LoggedFailure(OtherLogPrefix)
  }

  /** The page as a script: each error page ends it, an exception jumps to the
      handler that logs it. */
  method HandleDownload(query: map<string, string>, db: Database, scrub: string -> string) returns (r: Response)
    ensures r == DownloadResponse(query, db, scrub)
  {
    if "auth" !in query || ("file" !in query || IntVal(query["file"]) < 0 || IntVal(query["file"]) > 4) || "pre" !in query {
      return ErrorResponse(400, GenerateErrorPage(400, BadRequestText));
    }
    var fileInfo: Option<StoredFile> := None;
    var name := "";
    var caught: Option<string> := None;
    if !db.connects {
      caught := Some(SqlLogPrefix);
    } else {
      var user := scrub(query["auth"]);
      var file := IntVal(query["file"]);
      name := DisplayPrefix(scrub(query["pre"]));
      var sql := SelectSql(user, file);
      var result := db.run(sql);
      if result.Rows? && |result.rows| <= 0 {
        return ErrorResponse(404, GenerateErrorPage(404, NotFoundText));
      } else if result.QueryFalse? {
        return ErrorResponse(500, GenerateErrorPage(500, ServerErrorText));
      }
      if result.SqlException? {
        caught := Some(SqlLogPrefix);
      } else if result.OtherException? {
        caught := Some(OtherLogPrefix);
      } else {
        fileInfo := Some(result.rows[0]);
      }
    }
    if caught.Some? {
      return LoggedFailure(caught.value);
    }
    r := FileResponse(Headers(name, fileInfo.value), NullText(fileInfo.value.content));
  }

  // ---------------------------------------------------------------- properties

  /** Slots 5 and -1 are refused; a slot that is not a number is read as slot 0. */
  lemma SlotBounds(q: map<string, string>)
    requires "auth" in q && "pre" in q
    ensures DownloadResponse(q["file" := "5"], Database(true, _ => QueryFalse), x => x).status == 400
    ensures DownloadResponse(q["file" := "-1"], Database(true, _ => QueryFalse), x => x).status == 400
    ensures RequestValid(q["file" := "resume"]) && Slot(q["file" := "resume"]) == 0
    ensures RequestValid(q["file" := "4"]) && Slot(q["file" := "4"]) == 4
  {
    IntValOfNatText(5);
    IntValOfNatText(4);
    assert NatText(5) == "5" && NatText(4) == "4";
    assert SkipSpaces("-1") == "-1";
    assert LeadingDigits("1") == "1";
    assert IntVal("-1") == -1;
    IntValOfNonNumeric("resume");
  }

  /** The quotes the email wraps around the prefix are removed: a name without
      quotes or percent signs comes back as it was. */
  lemma PrefixUnquoted(n: string)
    requires '\'' !in n && '%' !in n
    ensures DisplayPrefix("'" + n + "'") == n
  {
    var quoted := "'" + n + "'";
    assert '%' !in quoted;
    RemoveAllNotFound(quoted, "%27");
    RemoveAllOneChar(quoted, '\'');
    WithoutConcat("'" + n, "'", {'\''});
    WithoutConcat("'", n, {'\''});
    WithoutNothingToDrop(n, {'\''});
  }

  /** `scrub` escapes the quotes of the email's `'First Last'` as `\'`; removing
      the quotes then leaves the backslashes, so the prefix is `\First Last\`. */
  lemma EscapedPrefix(n: string)
    requires '\'' !in n && '%' !in n
    ensures DisplayPrefix("\\'" + n + "\\'") == "\\" + n + "\\"
  {
    var escaped := "\\'" + n + "\\'";
    assert '%' !in escaped;
    RemoveAllNotFound(escaped, "%27");
    RemoveAllOneChar(escaped, '\'');
    WithoutConcat("\\'" + n, "\\'", {'\''});
    WithoutConcat("\\'", n, {'\''});
    WithoutConcat("\\", "'", {'\''});
    WithoutNothingToDrop(n, {'\''});
    WithoutNothingToDrop("\\", {'\''});
    assert Without("'", {'\''}) == [];
  }

  /** When `htmlentities` turns each quote into `&#039;` first, no quote is left
      to remove and the prefix keeps both entities. */
  lemma EntityPrefix(n: string)
    requires '\'' !in n && '%' !in n
    ensures DisplayPrefix("&#039;" + n + "&#039;") == "&#039;" + n + "&#039;"
  {
    var encoded := "&#039;" + n + "&#039;";
    assert '%' !in encoded && '\'' !in encoded;
    RemoveAllNotFound(encoded, "%27");
    RemoveAllNotFound(encoded, "'");
  }

  /** With a valid query and a working connection: no row gives 404, `false`
      gives 500, and a row is served with its content as the body. */
  lemma ResponseCases(query: map<string, string>, db: Database, scrub: string -> string)
    requires RequestValid(query) && db.connects
    ensures var sql := SelectSql(scrub(query["auth"]), Slot(query));
      var r := DownloadResponse(query, db, scrub);
      && (db.run(sql) == Rows([]) <==> r == ErrorResponse(404, GenerateErrorPage(404, NotFoundText)))
      && (db.run(sql) == QueryFalse <==> r == ErrorResponse(500, GenerateErrorPage(500, ServerErrorText)))
      && (db.run(sql).Rows? && db.run(sql).rows != [] <==> r.FileResponse?)
      && (r.FileResponse? ==>
            r.body == NullText(db.run(sql).rows[0].content)
            && r.headers == Headers(DisplayPrefix(scrub(query["pre"])), db.run(sql).rows[0]))
  {
  }
}
