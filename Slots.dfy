/** How the pages fit together: the columns the submission writes for a file
    slot are the ones the download reads, and the link the email gives for a
    slot asks the download page for that slot and serves the file uploaded. */
module Slots {
  import opened Common
  import opened PhpValues
  import opened EmailBody
  import opened Submission
  import opened Download

  // ---------------------------------------------------------------- query strings

  /** The key of a `key=value` piece: everything before its first `=`. */
  function KeyOf(piece: string): string {
    piece[..IndexOf(piece, '=')]
  }

  /** The value of a piece: everything after its first `=`, or nothing. */
  function ValueOf(piece: string): string {
    var i := IndexOf(piece, '=');
    if i < |piece| then piece[i + 1..] else ""
  }

  /** The pieces read in order; a later key replaces an earlier one and an
      empty key is ignored. */
  function ParsePieces(pieces: seq<string>): map<string, string>
    decreases |pieces|
  {
    if pieces == [] then map[]
    else
      var last := pieces[|pieces| - 1];
      var m := ParsePieces(pieces[..|pieces| - 1]);
      if KeyOf(last) == "" then m else m[KeyOf(last) := ValueOf(last)]
  }

  /** The query string as the download page receives it in `$_GET`. */
  function ParseQuery(q: string): map<string, string> {
    ParsePieces(Split(q, '&'))
  }

  lemma PieceParts(k: string, v: string)
    requires '=' !in k
    ensures KeyOf(k + "=" + v) == k && ValueOf(k + "=" + v) == v
  {
    var p := k + "=" + v;
    var i := IndexOf(p, '=');
    assert p[|k|] == '=';
    forall j | 0 <= j < |k| ensures p[j] != '=' {
      assert p[j] == k[j];
    }
    assert i == |k|;
    assert p[..|k|] == k;
    assert p[|k| + 1..] == v;
  }

  /** The link's query is its three parameters joined with `&`. */
  lemma LinkQueryPieces(guid: string, i: nat, a: Applicant)
    ensures LinkQuery(guid, i, a) ==
      Join(["auth" + "=" + guid, "file" + "=" + NatText(i), "pre" + "=" + ("'" + FullName(a) + "'")], "&")
  {
    var pieces := ["auth" + "=" + guid, "file" + "=" + NatText(i), "pre" + "=" + ("'" + FullName(a) + "'")];
    assert pieces[1..][1..] == [pieces[2]];
    assert Join(pieces[1..], "&") == pieces[1] + "&" + pieces[2];
  }

  lemma NoAmpInDigits(n: nat)
    ensures '&' !in NatText(n) && '=' !in NatText(n)
  {
    var t := NatText(n);
    forall j | 0 <= j < |t| ensures t[j] != '&' && t[j] != '=' {
      assert IsDigit(t[j]);
    }
  }

  lemma PieceAmpFree(k: string, v: string)
    requires '&' !in k && '&' !in v
    ensures '&' !in k + "=" + v
  {
    var p := k + "=" + v;
    forall j | 0 <= j < |p| ensures p[j] != '&' {
      if j < |k| {
        assert p[j] == k[j];
      } else if j > |k| {
        assert p[j] == v[j - |k| - 1];
      }
    }
  }

  /** Three pieces with non-empty keys give a map of those three keys. */
  lemma ParseThree(p0: string, p1: string, p2: string)
    requires KeyOf(p0) != "" && KeyOf(p1) != "" && KeyOf(p2) != ""
    ensures ParsePieces([p0, p1, p2]) == map[KeyOf(p0) := ValueOf(p0)][KeyOf(p1) := ValueOf(p1)][KeyOf(p2) := ValueOf(p2)]
  {
    var pieces := [p0, p1, p2];
    assert [p0][..0] == [];
    assert ParsePieces([p0]) == map[KeyOf(p0) := ValueOf(p0)];
    assert [p0, p1][..1] == [p0];
    assert ParsePieces([p0, p1]) == map[KeyOf(p0) := ValueOf(p0)][KeyOf(p1) := ValueOf(p1)];
    assert pieces[..2] == [p0, p1];
  }

  /** Three `key=value` parameters joined with `&` read back as those three
      entries, when no key holds `=` or `&` and no value holds `&`. */
  lemma ParseJoinedThree(k0: string, v0: string, k1: string, v1: string, k2: string, v2: string)
    requires k0 != "" && k1 != "" && k2 != ""
    requires '=' !in k0 && '=' !in k1 && '=' !in k2
    requires '&' !in k0 && '&' !in k1 && '&' !in k2 && '&' !in v0 && '&' !in v1 && '&' !in v2
    ensures ParseQuery(Join([k0 + "=" + v0, k1 + "=" + v1, k2 + "=" + v2], "&")) == map[k0 := v0][k1 := v1][k2 := v2]
  {
    PieceParts(k0, v0);
    PieceParts(k1, v1);
    PieceParts(k2, v2);
    PieceAmpFree(k0, v0);
    PieceAmpFree(k1, v1);
    PieceAmpFree(k2, v2);
    SplitJoin([k0 + "=" + v0, k1 + "=" + v1, k2 + "=" + v2], '&');
    ParseThree(k0 + "=" + v0, k1 + "=" + v1, k2 + "=" + v2);
  }

  /** The page reads back the three parameters the email's link carries, when
      the identifier and the name contain no `&`. */
  lemma LinkQueryParses(guid: string, i: nat, a: Applicant)
    requires '&' !in guid && '&' !in FullName(a)
    ensures ParseQuery(LinkQuery(guid, i, a)) == map["auth" := guid, "file" := NatText(i), "pre" := "'" + FullName(a) + "'"]
  {
    LinkQueryPieces(guid, i, a);
    NoAmpInDigits(i);
    var pre := "'" + FullName(a) + "'";
    assert '&' !in pre by {
      forall j | 0 <= j < |pre| ensures pre[j] != '&' {
        if 0 < j < |pre| - 1 {
          assert pre[j] == FullName(a)[j - 1];
        }
      }
    }
    ParseJoinedThree("auth", guid, "file", NatText(i), "pre", pre);
  }

  /** A link for slot 0 to 4 is a valid request for that slot. */
  lemma LinkRequestValid(guid: string, i: nat, a: Applicant)
    requires i <= 4 && '&' !in guid && '&' !in FullName(a)
    ensures var q := ParseQuery(LinkQuery(guid, i, a)); RequestValid(q) && Slot(q) == i
  {
    LinkQueryParses(guid, i, a);
    IntValOfNatText(i);
  }

  // ---------------------------------------------------------------- columns

  /** The download selects the four columns of slot `k`, each under its key. */
  lemma SelectReadsSlot(k: nat)
    ensures forall j :: 0 <= j < 4 ==> SelectList(k)[j] == Aliased(SlotColumns(k)[j], FileKeys[j])
  {
  }

  /** The INSERT writes entry `i`'s four values into exactly the columns the
      download reads for slot `i`. */
  lemma InsertAndSelectAgree(guid: string, bound: map<string, PostValue>, selected: seq<string>, fd: seq<FileRecord>, i: nat)
    requires i < |fd|
    ensures forall j :: 0 <= j < 4 ==>
      ColumnList(|fd|)[8 + 4 * i + j] == SlotColumns(i)[j]
      && ValueList(guid, bound, selected, fd)[8 + 4 * i + j] == RecordValues(fd[i])[j]
  {
    forall j | 0 <= j < 4
      ensures ColumnList(|fd|)[8 + 4 * i + j] == SlotColumns(i)[j]
      ensures ValueList(guid, bound, selected, fd)[8 + 4 * i + j] == RecordValues(fd[i])[j]
    {
      ColumnSlot(|fd|, i, j);
      ValueSlot(guid, bound, selected, fd, i, j);
    }
  }

  // ---------------------------------------------------------------- the round trip

  /** The row the database keeps for an entry: each string literal read back
      with its backslash escapes undone, the size as its decimal text. */
  function StoredRow(r: FileRecord): StoredFile {
    StoredFile(Some(StripSlashes(r.filename)), Some(IntText(r.size)), Some(StripSlashes(r.filetype)),
               Some(StripSlashes(r.content)))
  }

  /** Following the email's link for slot `k` downloads the file uploaded into
      that slot: its bytes as the body, its type and size in the headers, and
      its name after the prefix the page makes of the link's `pre` in the
      attachment's file name. The link's text is the same name. */
  lemma DownloadRoundTrip(files: map<string, Upload>, k: nat, u: Upload, guid: string, a: Applicant,
                          baseurl: string, db: Database, scrub: string -> string)
    requires var fd := Gathered(files, FileFields); k < |fd| && fd[k] == Record(u)
    requires '&' !in guid && '&' !in FullName(a)
    requires '\\' !in u.name
    requires scrub(guid) == guid
    requires db.connects && db.run(SelectSql(guid, k)) == Rows([StoredRow(Record(u))])
    ensures Links(baseurl, guid, a, Filenames(Gathered(files, FileFields)))[k] == Link(baseurl, guid, k, a, u.name)
    ensures var r := DownloadResponse(ParseQuery(LinkQuery(guid, k, a)), db, scrub);
      && r.FileResponse?
      && r.body == u.bytes
      && r.headers == Headers(DisplayPrefix(scrub("'" + FullName(a) + "'")), StoredRow(Record(u)))
      && r.headers[1] == "Content-length: " + IntText(u.size)
      && ('\\' !in u.mimeType ==> r.headers[0] == "Content-type: " + u.mimeType)
      && EndsWith(r.headers[2], "." + u.name + "\"")
  {
    LinkRequestValid(guid, k, a);
    LinkQueryParses(guid, k, a);
    StripAddSlashes(u.bytes);
    StripSlashesPlain(u.name);
    if '\\' !in u.mimeType {
      StripSlashesPlain(u.mimeType);
    }
    var q := ParseQuery(LinkQuery(guid, k, a));
    assert q["auth"] == guid && q["pre"] == "'" + FullName(a) + "'";
    ResponseCases(q, db, scrub);
  }

  /** The attachment's name header for a prefix and a stored file name. */
  lemma DispositionHeader(prefix: string, u: Upload)
    requires '\\' !in u.name
    ensures Headers(prefix, StoredRow(Record(u)))[2] ==
      "Content-Disposition: attachment; filename=\"" + prefix + "." + u.name + "\""
  {
    StripSlashesPlain(u.name);
  }

  /** The attachment's name that DownloadRoundTrip's headers carry for the
      applicant `First Last`: `scrub` escapes the link's quotes as `\'` and
      removing the quotes leaves the backslashes, so it is `\First Last\.<file>`;
      when `htmlentities` has encoded the quotes as `&#039;` first, no quote is
      left to remove. */
  lemma DownloadedName(n: string, u: Upload, scrub: string -> string)
    requires '\'' !in n && '%' !in n && '\\' !in u.name
    ensures var h := Headers(DisplayPrefix(scrub("'" + n + "'")), StoredRow(Record(u)));
      && (scrub("'" + n + "'") == "\\'" + n + "\\'" ==>
            h[2] == "Content-Disposition: attachment; filename=\"" + ("\\" + n + "\\") + "." + u.name + "\"")
      && (scrub("'" + n + "'") == "&#039;" + n + "&#039;" ==>
            h[2] == "Content-Disposition: attachment; filename=\"" + ("&#039;" + n + "&#039;") + "." + u.name + "\"")
  {
    var scrubbed := scrub("'" + n + "'");
    DispositionHeader(DisplayPrefix(scrubbed), u);
    if scrubbed == "\\'" + n + "\\'" {
      EscapedPrefix(n);
    } else if scrubbed == "&#039;" + n + "&#039;" {
      EntityPrefix(n);
    }
  }
}
