/** The body of the confirmation email: the applicant's details, the chosen
    scholarships and one download link per stored file. The submission date
    line and the table styling are static or locale-dependent and are not part
    of the model. */
module EmailBody {
  import opened Common

  /** The applicant's details as the submission bound them. */
  datatype Applicant = Applicant(
    firstname: string,
    lastname: string,
    email: string,
    pid: string,
    gpa: string,
    classYear: string)

  function FullName(a: Applicant): string {
    a.firstname + " " + a.lastname
  }

  /** The scholarships, one per line. */
  function ScholarshipsCell(selected: seq<string>): string {
    Join(selected, ",<br />")
  }

  /** The query string of the link to the file in slot `i`: the identifier, the
      slot and the applicant's name in single quotes as a download prefix. */
  function LinkQuery(guid: string, i: nat, a: Applicant): string {
    "auth=" + guid + "&file=" + NatText(i) + "&pre='" + FullName(a) + "'"
  }

  function Link(baseurl: string, guid: string, i: nat, a: Applicant, filename: string): string {
    "<a href=\"" + baseurl + "/download/?" + LinkQuery(guid, i, a) + "\">" + filename + "</a>"
  }

  /** The links, one per stored file, in slot order. */
  function Links(baseurl: string, guid: string, a: Applicant, filenames: seq<string>): (r: seq<string>)
    ensures |r| == |filenames|
    ensures forall i :: 0 <= i < |r| ==> r[i] == Link(baseurl, guid, i, a, filenames[i])
  {
    seq(|filenames|, i requires 0 <= i < |filenames| => Link(baseurl, guid, i, a, filenames[i]))
  }

  /** The template's loop: each link, followed by `<br />` unless it is the last. */
  function LinkEntries(baseurl: string, guid: string, a: Applicant, filenames: seq<string>, from: nat): seq<string>
    requires from <= |filenames|
    decreases |filenames| - from
  {
    if from == |filenames| then []
    else
      var entry := Link(baseurl, guid, from, a, filenames[from]) + (if from < |filenames| - 1 then "<br />" else "");
      [entry] + LinkEntries(baseurl, guid, a, filenames, from + 1)
  }

  function LinkList(baseurl: string, guid: string, a: Applicant, filenames: seq<string>): string {
    Concat(LinkEntries(baseurl, guid, a, filenames, 0))
  }

  /** A `<br />` separates consecutive links and never follows the last one:
      the list is the links joined by `<br />`. */
  lemma LinkListIsJoin(baseurl: string, guid: string, a: Applicant, filenames: seq<string>)
    ensures LinkList(baseurl, guid, a, filenames) == Join(Links(baseurl, guid, a, filenames), "<br />")
  {
    LinkEntriesJoin(baseurl, guid, a, filenames, 0);
    assert Links(baseurl, guid, a, filenames)[0..] == Links(baseurl, guid, a, filenames);
  }

  lemma {:induction false} LinkEntriesJoin(baseurl: string, guid: string, a: Applicant, filenames: seq<string>, from: nat)
    requires from <= |filenames|
    ensures Concat(LinkEntries(baseurl, guid, a, filenames, from)) == Join(Links(baseurl, guid, a, filenames)[from..], "<br />")
    decreases |filenames| - from
  {
    var links := Links(baseurl, guid, a, filenames);
    if from < |filenames| {
      LinkEntriesJoin(baseurl, guid, a, filenames, from + 1);
      assert links[from..][1..] == links[from + 1..];
      if from == |filenames| - 1 {
        assert LinkEntries(baseurl, guid, a, filenames, from + 1) == [];
      }
    }
  }

  /** The row of the applicant's table. */
  function Row(heading: string, cell: string): string {
    "<tr><th>" + heading + "</th><td>" + cell + "</td></tr>"
  }

  /** The "Submitted Files" row, present exactly when a file was stored. */
  function FilesRow(baseurl: string, guid: string, a: Applicant, filenames: seq<string>): (r: Option<string>)
    ensures r.Some? <==> |filenames| > 0
  {
    if |filenames| > 0 then Some(Row("Submitted Files:", LinkList(baseurl, guid, a, filenames))) else None
  }

  function EmailBodyHtml(baseurl: string, guid: string, a: Applicant, selected: seq<string>, filenames: seq<string>): string {
    var files := FilesRow(baseurl, guid, a, filenames);
    "<table>" + Row("Name:", FullName(a)) + Row("Email:", a.email) + Row("UCF ID:", a.pid) + Row("GPA:", a.gpa)
    + Row("Class Year:", a.classYear) + Row("Scholarships:", ScholarshipsCell(selected))
    + (if files.Some? then files.value else "") + "</table>"
  }

  /** The link to slot `i` names the file stored there and carries `file=i`,
      the identifier and the prefix wrapped in the quotes the download strips. */
  lemma LinkParts(baseurl: string, guid: string, i: nat, a: Applicant, filename: string)
    ensures var link := Link(baseurl, guid, i, a, filename);
      && StartsWith(link, "<a href=\"" + baseurl + "/download/?auth=" + guid + "&file=" + NatText(i) + "&pre='")
      && EndsWith(link, FullName(a) + "'\">" + filename + "</a>")
  {
    var p := "<a href=\"" + baseurl + "/download/?auth=" + guid + "&file=" + NatText(i) + "&pre='";
    var q := FullName(a) + "'\">" + filename + "</a>";
    var link := Link(baseurl, guid, i, a, filename);
    assert link == p + q;
    assert link[..|p|] == p;
    assert link[|link| - |q|..] == q;
  }

  /** With two links there is exactly one separator, between them. */
  lemma TwoLinks(baseurl: string, guid: string, a: Applicant, f0: string, f1: string)
    ensures LinkList(baseurl, guid, a, [f0, f1]) ==
      Link(baseurl, guid, 0, a, f0) + "<br />" + Link(baseurl, guid, 1, a, f1)
  {
    LinkListIsJoin(baseurl, guid, a, [f0, f1]);
    var links := Links(baseurl, guid, a, [f0, f1]);
    assert links[1..] == [links[1]];
  }
}
