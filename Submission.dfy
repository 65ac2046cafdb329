/** The form page's handling of a submission: binding the posted fields,
    the scholarship check, collecting the uploads into slots, assembling the
    INSERT statement, the outcome messages, and splitting a field schema into
    constructor arguments and extra attributes. The database and the mailer
    are outcomes given as inputs. */
module Submission {
  import opened Common
  import opened PhpValues
  import opened FormInputs
  import opened ScholarshipFunctions
  import opened EmailBody

  // ---------------------------------------------------------------- binding the posted fields

  /** A posted value: a string, or a list for `name[]` fields. */
  datatype PostValue = PostString(s: string) | PostArray(items: seq<string>)

  /** A non-numeric string is scrubbed; numbers and lists are bound unchanged. */
  function BoundValue(v: PostValue, scrub: string -> string): PostValue {
    if v.PostString? && !IsNumeric(v.s) then PostString(scrub(v.s)) else v
  }

  /** The variables the binding loop defines: one per schema field name that was posted. */
  function Bound(names: seq<string>, post: map<string, PostValue>, scrub: string -> string): (r: map<string, PostValue>)
    ensures forall n :: n in r <==> n in names && n in post
    ensures forall n :: n in r ==> r[n] == BoundValue(post[n], scrub)
  {
    map n | n in names && n in post :: BoundValue(post[n], scrub)
  }

  method BindPostFields(names: seq<string>, post: map<string, PostValue>, scrub: string -> string)
    returns (bound: map<string, PostValue>)
    ensures bound == Bound(names, post, scrub)
  {
    bound := map[];
    for i := 0 to |names|
      invariant bound == Bound(names[..i], post, scrub)
    {
      var name := names[i];
      assert names[..i + 1] == names[..i] + [name];
      if name in post {
        var v := post[name];
        bound := bound[name := if v.PostString? && !IsNumeric(v.s) then PostString(scrub(v.s)) else v];
      }
    }
    assert names[..|names|] == names;
  }

  /** A bound variable as PHP interpolates it: an unbound one is empty, a list is "Array". */
  function VarText(bound: map<string, PostValue>, n: string): string {
    if n in bound then (match bound[n] case PostString(s) => s case PostArray(_) => "Array") else ""
  }

  function ApplicantOf(bound: map<string, PostValue>): Applicant {
    Applicant(VarText(bound, "firstname"), VarText(bound, "lastname"), VarText(bound, "email"),
              VarText(bound, "pid"), VarText(bound, "gpa"), VarText(bound, "classYear"))
  }

  // ---------------------------------------------------------------- uploads

  /** An uploaded file as the request reports it; `bytes` is what reading it yields. */
  datatype Upload = Upload(name: string, size: int, mimeType: string, bytes: string)

  /** One entry of the collected file data, its content escaped for the query. */
  datatype FileRecord = FileRecord(filename: string, size: int, filetype: string, content: string)

  /** The upload fields, in the order they are examined. */
  const FileFields: seq<string> := ["resume", "personalStatement"]

  /** An upload is kept when it is present and its name is not empty. */
  predicate Kept(files: map<string, Upload>, key: string) {
    key in files && !EmptyString(files[key].name)
  }

  function Record(u: Upload): FileRecord {
    FileRecord(u.name, u.size, u.mimeType, AddSlashes(u.bytes))
  }

  /** The kept uploads of the given fields, in field order. */
  function Gathered(files: map<string, Upload>, keys: seq<string>): (r: seq<FileRecord>)
    ensures |r| <= |keys|
    decreases |keys|
  {
    if |keys| == 0 then []
    else
      var key := keys[|keys| - 1];
      Gathered(files, keys[..|keys| - 1]) + (if Kept(files, key) then [Record(files[key])] else [])
  }

  method GatherFiles(files: map<string, Upload>) returns (fileData: seq<FileRecord>)
    ensures fileData == Gathered(files, FileFields)
  {
    fileData := [];
    for k := 0 to |FileFields|
      invariant fileData == Gathered(files, FileFields[..k])
    {
      var file := FileFields[k];
      assert FileFields[..k + 1][..k] == FileFields[..k];
      if !(file in files) || EmptyString(files[file].name) {
        continue;
      }
      var u := files[file];
      fileData := fileData + [FileRecord(u.name, u.size, u.mimeType, AddSlashes(u.bytes))];
    }
    assert FileFields[..|FileFields|] == FileFields;
  }

  /** Kept uploads take consecutive slots from 0: the resume first when kept,
      the personal statement after it (or in slot 0 without a resume). */
  lemma GatheredSlots(files: map<string, Upload>)
    ensures var fd := Gathered(files, FileFields);
      && |fd| == (if Kept(files, "resume") then 1 else 0) + (if Kept(files, "personalStatement") then 1 else 0)
      && (Kept(files, "resume") ==> fd[0] == Record(files["resume"]))
      && (Kept(files, "personalStatement") ==>
            fd[if Kept(files, "resume") then 1 else 0] == Record(files["personalStatement"]))
  {
    assert FileFields[..1] == ["resume"];
    assert FileFields[..1][..0] == [];
  }

  // ---------------------------------------------------------------- the column string

  const FixedColumns: seq<string> := ["guid", "fname", "lname", "email", "pid", "gpa", "year", "scholarships"]

  /** The keys of a file entry, in the order the entry is built. */
  const FileKeys: seq<string> := ["filename", "size", "filetype", "content"]

  /** The columns of slot `i`. */
  function SlotColumns(i: nat): seq<string> {
    ["filename" + NatText(i), "size" + NatText(i), "filetype" + NatText(i), "content" + NatText(i)]
  }

  /** The file columns for `n` files: slot 0's four, then slot 1's, and so on. */
  function FileColumns(n: nat): (r: seq<string>)
    ensures |r| == 4 * n
  {
    if n == 0 then [] else FileColumns(n - 1) + SlotColumns(n - 1)
  }

  function ColumnList(n: nat): (r: seq<string>)
    ensures |r| == 9 + 4 * n
  {
    FixedColumns + FileColumns(n) + ["submitted"]
  }

  function ColumnString(n: nat): string {
    "(" + Join(ColumnList(n), ", ") + ")"
  }

  /** The column string the page builds for its file data. */
  method BuildColumnString(fileData: seq<FileRecord>) returns (columnStr: string)
    ensures columnStr == ColumnString(|fileData|)
  {
    var fileColumns: seq<string> := [];
    for i := 0 to |fileData|
      invariant fileColumns == FileColumns(i)
    {
      var keys := FileKeys;
      for j := 0 to |keys|
        invariant fileColumns == FileColumns(i) + SlotColumns(i)[..j]
      {
        fileColumns := fileColumns + [keys[j] + NatText(i)];
        assert SlotColumns(i)[..j + 1] == SlotColumns(i)[..j] + [keys[j] + NatText(i)];
      }
      assert SlotColumns(i)[..4] == SlotColumns(i);
    }
    columnStr := Join(FixedColumns, ", ");
    columnStr := columnStr + (if |fileColumns| > 0 then ", " + Join(fileColumns, ", ") else "") + ", " + "submitted";
    columnStr := "(" + columnStr + ")";
    ColumnJoin(|fileData|);
  }

  lemma ColumnJoin(n: nat)
    ensures Join(ColumnList(n), ", ") ==
      Join(FixedColumns, ", ") + (if n > 0 then ", " + Join(FileColumns(n), ", ") else "") + ", " + "submitted"
  {
    assert FileColumns(n) != [] <==> n > 0;
    JoinMiddle(FixedColumns, FileColumns(n), "submitted", ", ");
  }

  lemma Parenthesized(parts: seq<string>, last: string, sep: string)
    requires parts != []
    ensures "(" + Join(parts + [last], sep) + ")" == "(" + Join(parts, sep) + sep + last + ")"
  {
    JoinSnoc(parts, last, sep);
  }

  /** Without files the columns are the eight fixed ones and `submitted`, and
      the file part of the column string is left out. */
  lemma NoFileColumns()
    ensures ColumnList(0) == FixedColumns + ["submitted"]
    ensures ColumnString(0) == "(" + Join(FixedColumns, ", ") + ", " + "submitted" + ")"
  {
    assert ColumnList(0) == FixedColumns + ["submitted"] by {
      assert FileColumns(0) == [];
    }
    Parenthesized(FixedColumns, "submitted", ", ");
  }

  // ---------------------------------------------------------------- the value list

  function Quote(s: string): string {
    "'" + s + "'"
  }

  /** The four values of one file entry, matching its four columns. */
  function RecordValues(r: FileRecord): seq<string> {
    [Quote(r.filename), Quote(IntText(r.size)), Quote(r.filetype), Quote(r.content)]
  }

  function FileValues(fd: seq<FileRecord>): (r: seq<string>)
    ensures |r| == 4 * |fd|
  {
    if |fd| == 0 then [] else FileValues(fd[..|fd| - 1]) + RecordValues(fd[|fd| - 1])
  }

  /** The values before the file data: identifier, the six applicant fields and the scholarships. */
  function HeadValues(guid: string, bound: map<string, PostValue>, selected: seq<string>): (r: seq<string>)
    ensures |r| == 8
  {
    [Quote(guid), Quote(VarText(bound, "firstname")), Quote(VarText(bound, "lastname")),
     Quote(VarText(bound, "email")), Quote(VarText(bound, "pid")), Quote(VarText(bound, "gpa")),
     Quote(VarText(bound, "classYear")), Quote(Join(selected, ", "))]
  }

  function ValueList(guid: string, bound: map<string, PostValue>, selected: seq<string>, fd: seq<FileRecord>): seq<string> {
    HeadValues(guid, bound, selected) + FileValues(fd) + ["NOW()"]
  }

  /** The statement: the column string, the quoted values joined by commas,
      and `NOW()` for `submitted`. */
  function InsertSql(guid: string, bound: map<string, PostValue>, selected: seq<string>, fd: seq<FileRecord>): string {
    "INSERT INTO womenstudies " + ColumnString(|fd|) + " VALUES ("
    + Join(HeadValues(guid, bound, selected) + FileValues(fd), ", ") + ", NOW())"
  }

  /** The values text of the statement is the value list joined by commas. */
  lemma InsertValuesJoined(guid: string, bound: map<string, PostValue>, selected: seq<string>, fd: seq<FileRecord>)
    ensures Join(ValueList(guid, bound, selected, fd), ", ") ==
      Join(HeadValues(guid, bound, selected) + FileValues(fd), ", ") + ", " + "NOW()"
  {
    JoinSnoc(HeadValues(guid, bound, selected) + FileValues(fd), "NOW()", ", ");
  }

  /** There are as many values as columns: 8 fixed, 4 per file and `submitted`. */
  lemma ValuesMatchColumns(guid: string, bound: map<string, PostValue>, selected: seq<string>, fd: seq<FileRecord>)
    ensures |ValueList(guid, bound, selected, fd)| == |ColumnList(|fd|)| == 9 + 4 * |fd|
  {
  }

  /** Every file value sits in the position of its column: column `8 + 4i + k`
      is key `k` of slot `i`, and the value there is that field of file `i`. */
  lemma SlotAlignment(guid: string, bound: map<string, PostValue>, selected: seq<string>,
                      fd: seq<FileRecord>, i: nat, k: nat)
    requires i < |fd| && k < 4
    ensures ColumnList(|fd|)[8 + 4 * i + k] == FileKeys[k] + NatText(i)
    ensures ValueList(guid, bound, selected, fd)[8 + 4 * i + k] == RecordValues(fd[i])[k]
  {
    ColumnSlot(|fd|, i, k);
    ValueSlot(guid, bound, selected, fd, i, k);
  }

  lemma ColumnSlot(n: nat, i: nat, k: nat)
    requires i < n && k < 4
    ensures ColumnList(n)[8 + 4 * i + k] == FileKeys[k] + NatText(i)
  {
    ColumnAt(n, 4 * i + k);
    FileColumnsAt(n, i, k);
  }

  lemma ValueSlot(guid: string, bound: map<string, PostValue>, selected: seq<string>, fd: seq<FileRecord>, i: nat, k: nat)
    requires i < |fd| && k < 4
    ensures ValueList(guid, bound, selected, fd)[8 + 4 * i + k] == RecordValues(fd[i])[k]
  {
    ValueAt(guid, bound, selected, fd, 4 * i + k);
    FileValuesAt(fd, i, k);
  }

  lemma IndexMiddle(a: seq<string>, b: seq<string>, c: seq<string>, j: nat)
    requires j < |b|
    ensures (a + b + c)[|a| + j] == b[j]
  {
  }

  lemma ColumnAt(n: nat, j: nat)
    requires j < 4 * n
    ensures ColumnList(n)[8 + j] == FileColumns(n)[j]
  {
    IndexMiddle(FixedColumns, FileColumns(n), ["submitted"], j);
  }

  lemma ValueAt(guid: string, bound: map<string, PostValue>, selected: seq<string>, fd: seq<FileRecord>, j: nat)
    requires j < 4 * |fd|
    ensures ValueList(guid, bound, selected, fd)[8 + j] == FileValues(fd)[j]
  {
    IndexMiddle(HeadValues(guid, bound, selected), FileValues(fd), ["NOW()"], j);
  }

  lemma {:induction false} FileColumnsAt(n: nat, i: nat, k: nat)
    requires i < n && k < 4
    ensures FileColumns(n)[4 * i + k] == FileKeys[k] + NatText(i)
  {
    if i < n - 1 {
      FileColumnsAt(n - 1, i, k);
    }
  }

  lemma {:induction false} FileValuesAt(fd: seq<FileRecord>, i: nat, k: nat)
    requires i < |fd| && k < 4
    ensures FileValues(fd)[4 * i + k] == RecordValues(fd[i])[k]
  {
    var front := fd[..|fd| - 1];
    if i < |fd| - 1 {
      FileValuesAt(front, i, k);
      assert front[i] == fd[i];
    }
  }

  /** The text of the values before the file data, as the page writes it. */
  lemma HeadText(guid: string, bound: map<string, PostValue>, selected: seq<string>)
    ensures Join(HeadValues(guid, bound, selected), ", ") ==
      Quote(guid) + ", " + Quote(VarText(bound, "firstname")) + ", " + Quote(VarText(bound, "lastname"))
      + ", " + Quote(VarText(bound, "email")) + ", " + Quote(VarText(bound, "pid")) + ", " + Quote(VarText(bound, "gpa"))
      + ", " + Quote(VarText(bound, "classYear")) + ", " + Quote(Join(selected, ", "))
  {
    JoinEight(Quote(guid), Quote(VarText(bound, "firstname")), Quote(VarText(bound, "lastname")),
              Quote(VarText(bound, "email")), Quote(VarText(bound, "pid")), Quote(VarText(bound, "gpa")),
              Quote(VarText(bound, "classYear")), Quote(Join(selected, ", ")), ", ");
  }

  lemma FileValuesSnoc(fd: seq<FileRecord>, i: nat)
    requires i < |fd|
    ensures FileValues(fd[..i + 1]) == FileValues(fd[..i]) + RecordValues(fd[i])
  {
    assert fd[..i + 1][..i] == fd[..i];
  }

  /** One more file entry appends its four quoted fields to the values text. */
  lemma ValuesStep(hv: seq<string>, fd: seq<FileRecord>, i: nat, values: string)
    requires |hv| == 8 && i < |fd| && values == Join(hv + FileValues(fd[..i]), ", ")
    ensures Join(hv + FileValues(fd[..i + 1]), ", ") ==
      values + ", " + Quote(fd[i].filename) + ", " + Quote(IntText(fd[i].size)) + ", " + Quote(fd[i].filetype)
      + ", " + Quote(fd[i].content)
  {
    var r := fd[i];
    var front := hv + FileValues(fd[..i]);
    FileValuesSnoc(fd, i);
    AppendAssoc(hv, FileValues(fd[..i]), RecordValues(r));
    JoinAppendFour(front, values, Quote(r.filename), Quote(IntText(r.size)), Quote(r.filetype), Quote(r.content), ", ");
  }

  /** The INSERT statement the page builds: the column string, then the quoted
      values, one file entry at a time, and `NOW()` for `submitted`. */
  method BuildInsertSql(guid: string, bound: map<string, PostValue>, selected: seq<string>, fileData: seq<FileRecord>)
    returns (sql: string)
    ensures sql == InsertSql(guid, bound, selected, fileData)
  {
    var columnStr := BuildColumnString(fileData);
    var values := Quote(guid) + ", " + Quote(VarText(bound, "firstname")) + ", " + Quote(VarText(bound, "lastname"))
      + ", " + Quote(VarText(bound, "email")) + ", " + Quote(VarText(bound, "pid")) + ", " + Quote(VarText(bound, "gpa"))
      + ", " + Quote(VarText(bound, "classYear")) + ", " + Quote(Join(selected, ", "));
    HeadText(guid, bound, selected);
    ghost var hv := HeadValues(guid, bound, selected);
    assert hv + FileValues(fileData[..0]) == hv;
    for i := 0 to |fileData|
      invariant values == Join(hv + FileValues(fileData[..i]), ", ")
    {
      var r := fileData[i];
      ValuesStep(hv, fileData, i, values);
      values := values + ", " + Quote(r.filename) + ", " + Quote(IntText(r.size)) + ", " + Quote(r.filetype)
        + ", " + Quote(r.content);
    }
    assert fileData[..|fileData|] == fileData;
    sql := "INSERT INTO womenstudies " + columnStr + " VALUES (" + values + ", NOW())";
  }

  // ---------------------------------------------------------------- outcomes

  /** A message shown above the form, with its Bootstrap alert kind. */
  datatype Message = Message(msg: string, kind: string)

  /** The codes an exception can carry: the page's own two, or a driver's. */
  datatype ExceptionCode = DatabaseCode | EmailCode | DriverCode(n: int)

  const GateMessage := Message("You must select at least one scholarship to apply for.", "danger")
  const SuccessMessage := Message("Your scholarship application was submitted successfully!", "success")
  const EmailFailureText := "The confirmation email failed to send, but your information was successfully entered into the database. If you require a confirmation email for your records, please contact <a href=\"mailto:cahweb@ucf.edu\">CAH Web</a>"
  const DatabaseFailureText := "Problem communicating with the database. If this issue persists, please contact the <a href=\"mailto:cahweb@ucf.edu\">CAH Web Team</a>"

  /** The message for a caught exception: `info` for a failed email, `danger` for anything else. */
  function MessageForCode(code: ExceptionCode): (m: Message)
    ensures m.kind == "info" <==> code == EmailCode
    ensures m.kind == "danger" <==> code != EmailCode
    ensures m != GateMessage && m != SuccessMessage
  {
    if code == EmailCode then Message(EmailFailureText, "info") else Message(DatabaseFailureText, "danger")
  }

  /** What running the INSERT did: succeeded, returned false, or threw. */
  datatype InsertResult = Inserted | InsertFalse | InsertThrew(code: ExceptionCode)

  /** The outside world: whether connecting threw (and with what code), what the
      INSERT did, whether the mail was sent, and the site's base URL. */
  datatype Services = Services(connect: Option<ExceptionCode>, insert: InsertResult, mailSent: bool, baseurl: string)

  /** A request to the form page. `schemaNames` are the general-information field
      names, `selected` the posted scholarships, `rawGuid` the platform's GUID. */
  datatype Request = Request(
    submitted: bool,
    schemaNames: seq<string>,
    post: map<string, PostValue>,
    selected: seq<string>,
    files: map<string, Upload>,
    rawGuid: string)

  /** The confirmation email (its recipients are not part of the model). */
  datatype Mail = Mail(subject: string, body: string)

  datatype Outcome = Outcome(
    messages: seq<Message>,
    databaseSuccess: bool,
    emailSuccess: bool,
    bound: map<string, PostValue>,
    insertSql: Option<string>,
    mail: Option<Mail>)

  function Subject(bound: map<string, PostValue>, selected: seq<string>): string {
    VarText(bound, "firstname") + " " + VarText(bound, "lastname") + " - " + StripSlashes(Join(selected, ", ")) + " Application"
  }

  function Filenames(fd: seq<FileRecord>): (r: seq<string>)
    ensures |r| == |fd|
    ensures forall i :: 0 <= i < |fd| ==> r[i] == fd[i].filename
  {
    seq(|fd|, i requires 0 <= i < |fd| => fd[i].filename)
  }

  function ConfirmationMail(bound: map<string, PostValue>, selected: seq<string>, fd: seq<FileRecord>,
                            guid: string, baseurl: string): Mail {
    Mail(Subject(bound, selected),
         "<body>" + EmailBodyHtml(baseurl, guid, ApplicantOf(bound), selected, Filenames(fd)) + "</body>")
  }

  /** Where the try block stops: the messages and flags it has set, what it
      bound and built, and the code of the exception it threw, if any. */
  datatype TryState = TryState(
    messages: seq<Message>,
    databaseSuccess: bool,
    emailSuccess: bool,
    bound: map<string, PostValue>,
    insertSql: Option<string>,
    mail: Option<Mail>,
    thrown: Option<ExceptionCode>)

  /** The part of the try block after the statement is built: the INSERT, then
      the email once the row is in. */
  function InsertAttempt(bound: map<string, PostValue>, selected: seq<string>, fd: seq<FileRecord>,
                         guid: string, env: Services): (t: TryState)
    ensures t.bound == bound && t.insertSql == Some(InsertSql(guid, bound, selected, fd))
    ensures t.databaseSuccess <==> env.insert == Inserted
    ensures t.emailSuccess <==> env.insert == Inserted && env.mailSent
    ensures t.thrown.None? <==> t.emailSuccess
    ensures t.messages == if t.emailSuccess then [SuccessMessage] else []
    ensures t.mail.Some? <==> t.databaseSuccess
  {
    var sql := InsertSql(guid, bound, selected, fd);
    match env.insert
    case InsertThrew(c) => TryState([], false, false, bound, Some(sql), None, Some(c))
    case InsertFalse => TryState([], false, false, bound, Some(sql), None, Some(DatabaseCode))
    case Inserted =>
      var mail := ConfirmationMail(bound, selected, fd, guid, env.baseurl);
      if env.mailSent then TryState([SuccessMessage], true, true, bound, Some(sql), Some(mail), None)
      else TryState([], true, false, bound, Some(sql), Some(mail), Some(EmailCode))
  }

  /** The try block of a submitted form: connect, bind, check the scholarships,
      gather the files and, when nothing is wrong, insert and send. */
  function TryOutcome(req: Request, env: Services, scrub: string -> string): (t: TryState)
    ensures t.thrown.Some? ==> t.messages == []
    ensures t.thrown.None? ==> t.messages == [GateMessage] || t.messages == [SuccessMessage]
    ensures t.emailSuccess <==> t.messages == [SuccessMessage]
    ensures t.emailSuccess ==> t.databaseSuccess
    ensures t.mail.Some? <==> t.databaseSuccess
    ensures t.insertSql.Some? <==> env.connect.None? && req.selected != []
  {
    if env.connect.Some? then TryState([], false, false, map[], None, None, env.connect)
    else
      var bound := Bound(req.schemaNames, req.post, scrub);
      if req.selected == [] then TryState([GateMessage], false, false, bound, None, None, None)
      else InsertAttempt(bound, req.selected, Gathered(req.files, FileFields), GetNewGuid(req.rawGuid), env)
  }

  /** The catch block: the message for the thrown code is shown after what the
      try block had already added. */
  function Caught(t: TryState): (out: Outcome)
    ensures out.messages == t.messages + (if t.thrown.Some? then [MessageForCode(t.thrown.value)] else [])
    ensures out.databaseSuccess == t.databaseSuccess && out.emailSuccess == t.emailSuccess
    ensures out.insertSql == t.insertSql && out.mail == t.mail && out.bound == t.bound
  {
    var extra := if t.thrown.Some? && !EmptyString(MessageForCode(t.thrown.value).msg) then [MessageForCode(t.thrown.value)] else [];
    Outcome(t.messages + extra, t.databaseSuccess, t.emailSuccess, t.bound, t.insertSql, t.mail)
  }

  /** What the page ends up with after handling a request. */
  function SubmissionOutcome(req: Request, env: Services, scrub: string -> string): (r: Outcome)
    ensures req.submitted ==> |r.messages| == 1
    ensures !req.submitted ==> r.messages == [] && r.insertSql.None?
    ensures r.emailSuccess ==> r.databaseSuccess
    ensures r.emailSuccess <==> SuccessMessage in r.messages
    ensures r.mail.Some? <==> r.databaseSuccess
    ensures r.insertSql.Some? ==> req.selected != [] && env.connect.None?
  {
    if !req.submitted then Outcome([], false, false, map[], None, None)
    else
      var t := TryOutcome(req, env, scrub);
      var r := Caught(t);
      assert t.thrown.Some? ==> MessageForCode(t.thrown.value) != SuccessMessage;
      r
  }

  /** The try block, step by step as the page runs it; a thrown exception ends
      it early with its code. */
  method TryBlock(req: Request, env: Services, scrub: string -> string) returns (t: TryState)
    ensures t == TryOutcome(req, env, scrub)
  {
    if env.connect.Some? {
      return TryState([], false, false, map[], None, None, env.connect);
    }
    var messages: seq<Message> := [];
    var bound := BindPostFields(req.schemaNames, req.post, scrub);
    if req.selected == [] {
      messages := messages + [GateMessage];
    }
    var fileData := GatherFiles(req.files);
    var guid := GetNewGuid(req.rawGuid);
    if messages != [] {
      return TryState(messages, false, false, bound, None, None, None);
    }
    t := AttemptInsert(bound, req.selected, fileData, guid, env);
  }

  /** The INSERT and the email, as the try block runs them. */
  method AttemptInsert(bound: map<string, PostValue>, selected: seq<string>, fileData: seq<FileRecord>,
                       guid: string, env: Services) returns (t: TryState)
    ensures t == InsertAttempt(bound, selected, fileData, guid, env)
  {
    var sql := BuildInsertSql(guid, bound, selected, fileData);
    match env.insert {
      case InsertThrew(c) =>
        t := TryState([], false, false, bound, Some(sql), None, Some(c));
      case InsertFalse =>
        t := TryState([], false, false, bound, Some(sql), None, Some(DatabaseCode));
      case Inserted =>
        var mail := ConfirmationMail(bound, selected, fileData, guid, env.baseurl);
        if !env.mailSent {
          t := TryState([], true, false, bound, Some(sql), Some(mail), Some(EmailCode));
        } else {
          t := TryState([SuccessMessage], true, true, bound, Some(sql), Some(mail), None);
        }
    }
  }

  /** The handling of one request: the try block, then the catch block's message. */
  method ProcessSubmission(req: Request, env: Services, scrub: string -> string) returns (out: Outcome)
    ensures out == SubmissionOutcome(req, env, scrub)
  {
    if !req.submitted {
      return Outcome([], false, false, map[], None, None);
    }
    var t := TryBlock(req, env, scrub);
    var messages := t.messages;
    if t.thrown.Some? {
      var m := MessageForCode(t.thrown.value);
      if !EmptyString(m.msg) {
        messages := messages + [m];
      }
    }
    out := Outcome(messages, t.databaseSuccess, t.emailSuccess, t.bound, t.insertSql, t.mail);
  }

  /** The form is shown again unless the application reached the database. */
  predicate FormShown(req: Request, out: Outcome) {
    !req.submitted || !out.databaseSuccess
  }

  /** The statement is built, the row stored and the email sent exactly on the
      paths through the page that lead there. */
  lemma OutcomeReach(req: Request, env: Services, scrub: string -> string)
    ensures var r := SubmissionOutcome(req, env, scrub);
      var reached := req.submitted && env.connect.None? && req.selected != [];
      && (r.insertSql.Some? <==> reached)
      && (r.databaseSuccess <==> reached && env.insert == Inserted)
      && (r.emailSuccess <==> reached && env.insert == Inserted && env.mailSent)
      && (FormShown(req, r) <==> !r.databaseSuccess)
  {
  }

  /** Without a scholarship only the gate's message is shown, and nothing is
      inserted or mailed. */
  lemma GateBlocks(req: Request, env: Services, scrub: string -> string)
    requires req.submitted && env.connect.None? && req.selected == []
    ensures var r := SubmissionOutcome(req, env, scrub);
      r.messages == [GateMessage] && r.insertSql.None? && r.mail.None? && !r.databaseSuccess
  {
  }

  /** A failed INSERT shows the database message and sends no email; a failed
      email after a stored row shows the informational message. */
  lemma FailureMessages(req: Request, env: Services, scrub: string -> string)
    ensures var r := SubmissionOutcome(req, env, scrub);
      r.insertSql.Some? && env.insert == InsertFalse ==>
        r.messages == [MessageForCode(DatabaseCode)] && r.messages[0].kind == "danger" && r.mail.None?
    ensures var r := SubmissionOutcome(req, env, scrub);
      r.databaseSuccess && !env.mailSent ==>
        r.messages == [MessageForCode(EmailCode)] && r.messages[0].kind == "info" && !r.emailSuccess
  {
  }

  /** The statement run is the one built from the bound fields, the chosen
      scholarships and the gathered files under the stripped identifier. */
  lemma InsertedStatement(req: Request, env: Services, scrub: string -> string)
    ensures var r := SubmissionOutcome(req, env, scrub);
      r.insertSql.Some? ==>
        r.insertSql.value == InsertSql(GetNewGuid(req.rawGuid), Bound(req.schemaNames, req.post, scrub), req.selected,
                                       Gathered(req.files, FileFields))
  {
  }

  // ---------------------------------------------------------------- field schemas

  /** The schema keys that become constructor arguments. */
  const ObjProps: seq<string> := ["name", "type", "label", "required", "formText", "options"]

  /** The constructor arguments gathered from one field schema. */
  datatype SchemaArgs = SchemaArgs(
    name: Value,
    inputType: Value,
    labelText: Value,
    required: Value,
    formText: Value,
    options: Value,
    additionalAttrs: seq<Attr>)

  const DefaultArgs := SchemaArgs(Atom(Str("")), Atom(Str("")), Atom(Str("")), Atom(Bool(false)), Atom(Str("")), Items([]), [])

  /** One schema entry: a named argument is set, any other key is copied into the extra attributes. */
  function Assign(args: SchemaArgs, key: string, value: Value): SchemaArgs {
    if key == "name" then args.(name := value)
    else if key == "type" then args.(inputType := value)
    else if key == "label" then args.(labelText := value)
    else if key == "required" then args.(required := value)
    else if key == "formText" then args.(formText := value)
    else if key == "options" then args.(options := value)
    else args.(additionalAttrs := Put(args.additionalAttrs, key, value))
  }

  function Partition(entry: seq<Attr>): SchemaArgs
    decreases |entry|
  {
    if |entry| == 0 then DefaultArgs
    else Assign(Partition(entry[..|entry| - 1]), entry[|entry| - 1].key, entry[|entry| - 1].value)
  }

  /** The page's loop over one field schema. */
  method PartitionSchemaEntry(entry: seq<Attr>) returns (args: SchemaArgs)
    ensures args == Partition(entry)
  {
    var name, inputType, labelText := Atom(Str("")), Atom(Str("")), Atom(Str(""));
    var required, formText, options := Atom(Bool(false)), Atom(Str("")), Items([]);
    var additionalAttrs: seq<Attr> := [];
    for i := 0 to |entry|
      invariant SchemaArgs(name, inputType, labelText, required, formText, options, additionalAttrs) == Partition(entry[..i])
    {
      var key, value := entry[i].key, entry[i].value;
      assert entry[..i + 1][..i] == entry[..i];
      if key in ObjProps {
        if key == "name" {
          name := value;
        } else if key == "type" {
          inputType := value;
        } else if key == "label" {
          labelText := value;
        } else if key == "required" {
          required := value;
        } else if key == "formText" {
          formText := value;
        } else {
          options := value;
        }
      } else {
        additionalAttrs := Put(additionalAttrs, key, value);
      }
    }
    assert entry[..|entry|] == entry;
    args := SchemaArgs(name, inputType, labelText, required, formText, options, additionalAttrs);
  }

  /** The argument a named key sets. */
  function PropArg(args: SchemaArgs, key: string): Value
    requires key in ObjProps
  {
    if key == "name" then args.name
    else if key == "type" then args.inputType
    else if key == "label" then args.labelText
    else if key == "required" then args.required
    else if key == "formText" then args.formText
    else args.options
  }

  /** The keys of a PHP array are distinct. */
  predicate DistinctKeys(entry: seq<Attr>) {
    forall i, j :: 0 <= i < j < |entry| ==> entry[i].key != entry[j].key
  }

  /** The entries whose keys are not named arguments, in their order. */
  function Extras(entry: seq<Attr>): seq<Attr>
    decreases |entry|
  {
    if |entry| == 0 then []
    else Extras(entry[..|entry| - 1]) + (if entry[|entry| - 1].key in ObjProps then [] else [entry[|entry| - 1]])
  }

  /** A key no entry has is not among the extras. */
  lemma {:induction false} ExtrasWithoutKey(entry: seq<Attr>, key: string)
    requires forall i :: 0 <= i < |entry| ==> entry[i].key != key
    ensures !HasKey(Extras(entry), key)
    decreases |entry|
  {
    if |entry| > 0 {
      var front := entry[..|entry| - 1];
      ExtrasWithoutKey(front, key);
      if entry[|entry| - 1].key !in ObjProps {
        HasKeySnoc(Extras(front), entry[|entry| - 1], key);
      } else {
        assert Extras(entry) == Extras(front);
      }
    }
  }

  /** Every key outside the named arguments is copied verbatim into the extra
      attributes, in schema order, and no named key is. */
  lemma {:induction false} PartitionExtras(entry: seq<Attr>)
    requires DistinctKeys(entry)
    ensures Partition(entry).additionalAttrs == Extras(entry)
    decreases |entry|
  {
    if |entry| > 0 {
      var front := entry[..|entry| - 1];
      var last := entry[|entry| - 1];
      assert DistinctKeys(front);
      PartitionExtras(front);
      if last.key !in ObjProps {
        forall i | 0 <= i < |front| ensures front[i].key != last.key {
          assert front[i] == entry[i];
        }
        ExtrasWithoutKey(front, last.key);
        PutNewKey(Extras(front), last.key, last.value);
      }
    }
  }

  /** A named key present in the schema sets its argument to its value; an
      absent one leaves the page's default. */
  lemma {:induction false} PartitionProps(entry: seq<Attr>, key: string)
    requires DistinctKeys(entry) && key in ObjProps
    ensures forall i :: 0 <= i < |entry| && entry[i].key == key ==> PropArg(Partition(entry), key) == entry[i].value
    ensures (forall i :: 0 <= i < |entry| ==> entry[i].key != key) ==> PropArg(Partition(entry), key) == PropArg(DefaultArgs, key)
    decreases |entry|
  {
    if |entry| > 0 {
      var front := entry[..|entry| - 1];
      var last := entry[|entry| - 1];
      assert DistinctKeys(front) by {
        forall i, j | 0 <= i < j < |front| ensures front[i].key != front[j].key {
          assert front[i] == entry[i] && front[j] == entry[j];
        }
      }
      PartitionProps(front, key);
      PropAssign(Partition(front), last.key, last.value, key);
      forall i | 0 <= i < |front| ensures front[i] == entry[i] && front[i].key != last.key {
        assert entry[i].key != entry[|entry| - 1].key;
      }
    }
  }

  /** Setting one key changes the argument of that key only. */
  lemma PropAssign(args: SchemaArgs, k: string, v: Value, key: string)
    requires key in ObjProps
    ensures PropArg(Assign(args, k, v), key) == if k == key then v else PropArg(args, key)
  {
  }

  /** The options argument as the constructor sees it: a list is static, a
      string names a provider. */
  function OptionsOf(v: Value): OptionSource {
    match v
    case Items(entries) => Listed(entries)
    case Atom(a) => Provided(ScalarText(a))
  }

  /** The value the page passes for a field: the bound variable when it is set.
      A non-empty list reaches the renderer as PHP's string form of an array,
      `Array`; an empty one is `empty()` and renders like no value. */
  function CurrentValue(bound: map<string, PostValue>, name: string): (v: Option<Scalar>)
    ensures v.None? <==> name !in bound || bound[name] == PostArray([])
    ensures name in bound && bound[name].PostString? ==> v == Some(Str(bound[name].s))
    ensures name in bound && bound[name].PostArray? && bound[name].items != [] ==> v == Some(Str("Array"))
  {
    if name !in bound then None
    else match bound[name]
      case PostString(s) => Some(Str(s))
      case PostArray(items) => if items == [] then None else Some(Str("Array"))
  }

  /** The FormInput the page builds for a schema, with the value posted for its name. */
  function FieldOf(args: SchemaArgs, bound: map<string, PostValue>): (f: Field)
    ensures f.baseWidth == 12 && f.formText.Some? && f.additionalAttrs == Some(args.additionalAttrs)
  {
    var name := ValueText(args.name);
    Field(name, ValueText(args.inputType), ValueText(args.labelText), CurrentValue(bound, name), OptionsOf(args.options),
          ValueTruthy(args.required), Some(ValueText(args.formText)), Some(args.additionalAttrs), 12)
  }

  /** The inputs the page echoes for the general-information schemas, one per schema. */
  function GeneralInfoInputs(schemas: seq<seq<Attr>>, bound: map<string, PostValue>,
                             providers: string -> ProviderOutcome): (r: seq<string>)
    ensures |r| == |schemas|
    ensures forall i :: 0 <= i < |schemas| ==> r[i] == Render(FieldOf(Partition(schemas[i]), bound), providers)
  {
    seq(|schemas|, i requires 0 <= i < |schemas| => Render(FieldOf(Partition(schemas[i]), bound), providers))
  }

  /** The general-information section: the inputs one after the other. */
  function GeneralInfoHtml(schemas: seq<seq<Attr>>, bound: map<string, PostValue>,
                           providers: string -> ProviderOutcome): string {
    Concat(GeneralInfoInputs(schemas, bound, providers))
  }

  /** One more schema adds its input after those of the earlier schemas. */
  lemma GeneralInfoSnoc(schemas: seq<seq<Attr>>, s: seq<Attr>, bound: map<string, PostValue>,
                        providers: string -> ProviderOutcome)
    ensures GeneralInfoHtml(schemas + [s], bound, providers) ==
      GeneralInfoHtml(schemas, bound, providers) + Render(FieldOf(Partition(s), bound), providers)
  {
    var all := GeneralInfoInputs(schemas + [s], bound, providers);
    var front := GeneralInfoInputs(schemas, bound, providers);
    forall i | 0 <= i < |front| ensures all[i] == front[i] {
      assert (schemas + [s])[i] == schemas[i];
    }
    assert (schemas + [s])[|schemas|] == s;
    ConcatSnoc(all, front, Render(FieldOf(Partition(s), bound), providers));
  }

  /** The page builds every input with base width 12, so each schema's input is
      its form group wrapped in its own row. */
  lemma GeneralInfoRows(schemas: seq<seq<Attr>>, bound: map<string, PostValue>,
                        providers: string -> ProviderOutcome, i: nat)
    requires i < |schemas|
    ensures var f := FieldOf(Partition(schemas[i]), bound);
      var piece := GeneralInfoInputs(schemas, bound, providers)[i];
      StartsWith(piece, RowOpen) && piece == RowOpen + Inner(f, providers) + "</div>"
  {
    RowWrapperIff(FieldOf(Partition(schemas[i]), bound), providers);
  }

  /** After a failed submission a posted text field shows the value the binding
      gave it: scrubbed when it is not numeric. */
  lemma ShownAgain(names: seq<string>, post: map<string, PostValue>, scrub: string -> string, args: SchemaArgs, s: string)
    requires ValueText(args.name) in names && ValueText(args.name) in post
    requires post[ValueText(args.name)] == PostString(s)
    ensures FieldOf(args, Bound(names, post, scrub)).value == Some(Str(if IsNumeric(s) then s else scrub(s)))
  {
  }
}
