/** The helpers shared by the form and the download page: the applicant
    identifier, the error page and the error log's location. */
module ScholarshipFunctions {
  import opened Common

  /** The characters stripped from a raw GUID. */
  const GuidPunctuation: set<char> := {'{', '}', '-'}

  /** `getNewGuid`: the GUID the platform generated (`raw`, an input here) with
      its braces removed first, then its closing braces, then its hyphens. */
  function GetNewGuid(raw: string): string {
    RemoveAll(RemoveAll(RemoveAll(raw, "{"), "}"), "-")
  }

  /** Stripping keeps every other character of the GUID, in order, and nothing else. */
  lemma GuidIsFiltered(raw: string)
    ensures GetNewGuid(raw) == Without(raw, GuidPunctuation)
    ensures forall i :: 0 <= i < |GetNewGuid(raw)| ==>
      GetNewGuid(raw)[i] != '{' && GetNewGuid(raw)[i] != '}' && GetNewGuid(raw)[i] != '-'
  {
    RemoveAllOneChar(raw, '{');
    RemoveAllOneChar(Without(raw, {'{'}), '}');
    WithoutWithout(raw, {'{'}, {'}'});
    RemoveAllOneChar(Without(raw, {'{', '}'}), '-');
    WithoutWithout(raw, {'{', '}'}, {'-'});
    assert {'{'} + {'}'} == {'{', '}'};
    assert {'{', '}'} + {'-'} == GuidPunctuation;
  }

  /** Stripping an already stripped identifier changes nothing. */
  lemma GuidIdempotent(raw: string)
    ensures GetNewGuid(GetNewGuid(raw)) == GetNewGuid(raw)
  {
    GuidIsFiltered(raw);
    GuidIsFiltered(GetNewGuid(raw));
    WithoutWithout(raw, GuidPunctuation, GuidPunctuation);
    assert GuidPunctuation + GuidPunctuation == GuidPunctuation;
  }

  // ---------------------------------------------------------------- error pages

  /** The reason phrase `generateErrorPage` knows for a status code; an unknown
      code looks up nothing and gives the empty string. */
  function ReasonPhrase(code: int): string {
    if code == 400 then "Bad Request"
    else if code == 404 then "Not Found"
    else if code == 500 then "Internal Server Error"
    else ""
  }

  /** The page title: the code, a space and its reason phrase. */
  function ErrorTitle(code: int): string {
    IntText(code) + " " + ReasonPhrase(code)
  }

  lemma ErrorTitles()
    ensures ErrorTitle(400) == "400 Bad Request"
    ensures ErrorTitle(404) == "404 Not Found"
    ensures ErrorTitle(500) == "500 Internal Server Error"
  {
    assert NatText(400) == "400" by {
      assert NatText(40) == "40" by { assert NatText(4) == "4"; }
    }
    assert NatText(404) == "404" by {
      assert NatText(40) == "40" by { assert NatText(4) == "4"; }
    }
    assert NatText(500) == "500" by {
      assert NatText(50) == "50" by { assert NatText(5) == "5"; }
    }
  }

  /** What `generateErrorPage` leaves behind: the page it printed (its dynamic
      parts) and the code it exits with. It never returns to its caller. */
  datatype ErrorExit = ErrorExit(exitCode: int, title: string, heading: string, message: string)

  function ErrorPageHtml(page: ErrorExit): string {
    "<title>" + page.title + "</title>" + "<h1 class=\"font-condensed mt-5\">" + page.heading + "</h1>"
    + "<p class=\"h4\">" + page.message + "</p>"
  }

  /** The page for a response code: the same title in `<title>` and `<h1>`, the
      message in the body, and an exit with that code. */
  function GenerateErrorPage(code: int, msg: string): (page: ErrorExit)
    ensures page.exitCode == code
    ensures page.title == page.heading == ErrorTitle(code)
    ensures page.message == msg
  {
    var title := ErrorTitle(code);
    ErrorExit(code, title, title, msg)
  }

  /** The literal title `generateErrorPage` shows for each code download.php uses. */
  function KnownTitle(code: int): string
    requires code == 400 || code == 404 || code == 500
  {
    if code == 400 then "400 Bad Request"
    else if code == 404 then "404 Not Found"
    else "500 Internal Server Error"
  }

  /** A page whose title and heading agree shows that title in both `<title>` and
      the condensed `<h1>`, in that order, and ends with the message paragraph. */
  lemma PageShowsTitle(page: ErrorExit, t: string)
    requires page.title == t && page.heading == t
    ensures ErrorPageHtml(page)
      == ("<title>" + t + "</title>") + ("<h1 class=\"font-condensed mt-5\">" + t + "</h1>")
         + ("<p class=\"h4\">" + page.message + "</p>")
    ensures EndsWith(ErrorPageHtml(page), "<p class=\"h4\">" + page.message + "</p>")
  {
    var html := ErrorPageHtml(page);
    var tail := "<p class=\"h4\">" + page.message + "</p>";
    assert html[|html| - |tail|..] == tail;
  }

  /** For the three codes used by download.php the printed page carries the
      literal status line (e.g. `404 Not Found`) as both the document title and the
      visible heading, ends with the message paragraph, and the exit code is the
      response code. */
  lemma ErrorPageShows(code: int, msg: string)
    requires code == 400 || code == 404 || code == 500
    ensures var page := GenerateErrorPage(code, msg); var t := KnownTitle(code);
      page.exitCode == code
      && ErrorPageHtml(page)
         == ("<title>" + t + "</title>") + ("<h1 class=\"font-condensed mt-5\">" + t + "</h1>")
            + ("<p class=\"h4\">" + msg + "</p>")
      && EndsWith(ErrorPageHtml(page), "<p class=\"h4\">" + msg + "</p>")
  {
    ErrorTitles();
    PageShowsTitle(GenerateErrorPage(code, msg), KnownTitle(code));
  }

  // ---------------------------------------------------------------- the error log

  const LogFileName := "wgst-scholarship-error.log"

  /** `logError` appends to the log file in the directory it is given. */
  function LogFilePath(baseDir: string): (path: string)
    ensures StartsWith(path, baseDir + "/") && EndsWith(path, "/" + LogFileName)
    ensures |path| == |baseDir| + 1 + |LogFileName|
  {
    var path := baseDir + "/" + LogFileName;
    assert path[..|baseDir| + 1] == baseDir + "/";
    assert path[|path| - |"/" + LogFileName|..] == "/" + LogFileName;
    path
  }
}
