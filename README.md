# WGST scholarship form: a Dafny model

This project models the core of the Women's and Gender Studies scholarship
application (cahweb/wgst-scholarship-form). The application has five parts:

- **The form renderer.** Two classes turn one field schema each into a
  Bootstrap form group. `FormInput` renders a basic input, a select or a
  textarea. `FileInput` renders the custom file chooser.
- **The submission handler** in `index.php`:
  - binds the posted fields;
  - refuses an application without a scholarship;
  - collects up to two uploads into numbered slots;
  - assembles the `INSERT` statement with one column group per slot;
  - sends the confirmation email;
  - maps every outcome to a message.
- **The email body.** It holds one download link per stored slot.
- **The download page.** It validates the link's query and selects the
  requested slot's columns. It answers with the stored file, or with a 400,
  404 or 500 page.
- **Smaller pieces:**
  - the GUID stripping;
  - the error-page title and the error log's path;
  - the browser's extraction of a file name from its "fakepath" value.

The modules follow the program's files:

| module | models |
|---|---|
| `Common` | string and sequence helpers: PHP's `implode`, `explode`, `str_replace` and integer-to-string conversion |
| `PhpValues` | PHP value semantics the code relies on: `empty()`, truthiness, `is_numeric`, `intval`, `ucfirst`, `addslashes`, `stripslashes`, and the value of `$n / 2` |
| `FormInputs` | `includes/class.formInput.php` |
| `FileInputs` | `includes/class.fileInput.php` |
| `Submission` | `index.php` lines 42–225, and the schema partition at lines 280–307 |
| `EmailBody` | `includes/email-body.php` |
| `Download` | `download.php` |
| `ScholarshipFunctions` | `includes/wgst-scholarship-functions.php` |
| `FileLabel` | `getUploadedFileName` and the label choice in `js/index.js` |
| `Slots` | properties that span files: the slot a file is inserted into is the one its email link names and the one the download reads back |

Each mutable PHP object is a Dafny class, and its methods are proved against
specification functions:
- `FormInput.TextareaInput` updates `additionalAttrs` in place.
- `FormInput.ParseAdditionalAttrs` is a loop.

The imperative scripts are methods with loops:
- `BindPostFields`, `GatherFiles`, `BuildColumnString`, `BuildInsertSql`;
- `TryBlock`, `AttemptInsert` and `ProcessSubmission`;
- `HandleDownload`, `PartitionSchemaEntry` and `GetUploadedFileName`.

Each method's `ensures` ties it to a function, and the lemmas state the
properties about those functions.

These are parameters, not models:
- the database and the mailer are given outcomes (`Services`, `Database`);
- a select's option provider is a function from its name to a
  `ProviderOutcome`;
- `scrub` (htmlentities, then mysqli_real_escape_string) is an
  uninterpreted function;
- the GUID from `com_create_guid` is an input string.

## Model

| member | source | states |
|---|---|---|
| PhpValues.Ucfirst | includes/class.formInput.php:225-228 | ucfirst keeps the length and everything after the first character; a lower-case first letter becomes the upper-case letter at the same alphabet position, and any other first character is left alone |
| PhpValues.IntValOfNatText | download.php:30 | intval reads back the decimal text of any non-negative integer |
| PhpValues.IntValOfNonNumeric | download.php:30 | intval of a string that starts with neither whitespace, a sign nor a digit is 0 |
| PhpValues.DigitsAreNumeric | index.php:57 | a non-empty run of decimal digits is numeric, so it is bound without scrubbing |
| PhpValues.NotNumeric | index.php:57 | a string whose first character cannot begin a number is not numeric, so it is scrubbed |
| PhpValues.StripAddSlashes | index.php:86 | unescaping what addslashes stored gives back exactly the uploaded bytes |
| PhpValues.StripSlashesPlain | index.php:165 | stripslashes leaves a string without backslashes unchanged |
| PhpValues.Half | includes/class.formInput.php:164 | `$n / 2` is exactly half of n, and a whole number exactly when n is even |
| FormInputs.Lookup | includes/class.formInput.php:242 | looking a key up fails exactly when no entry has that key |
| FormInputs.Put | includes/class.formInput.php:243 | assigning a key keeps the array's length when the key exists and adds one entry when it does not |
| FormInputs.PutNewKey | includes/class.formInput.php:243 | assigning a new key appends it after every existing entry |
| FormInputs.Tokens | includes/class.formInput.php:273-279 | there is one attribute token per entry, in entry order |
| FormInputs.BareRequiredToken | includes/class.formInput.php:274-278 | a token is the bare word `required` exactly for a `required` key with a truthy value; every other token is `key="value"` |
| FormInputs.AttrStringEmptyIff | includes/class.formInput.php:270-282 | the attribute string is empty (and not "0") exactly when there are no additional attributes |
| FormInputs.AttrStringSnoc | includes/class.formInput.php:273-280 | one more entry appends its token after exactly one space |
| FormInputs.FormInput.ParseAdditionalAttrs | includes/class.formInput.php:268-283 | the loop returns the tokens of the entries joined by single spaces, or "" |
| FormInputs.DefaultsKeepCallerAttrs | includes/class.formInput.php:241-245 | adding defaults only appends: the caller's entries keep their positions and values |
| FormInputs.LookupSnoc | includes/class.formInput.php:242 | an appended entry is found only when no earlier entry has its key |
| FormInputs.HasKeySnoc | includes/class.formInput.php:242 | a key is present after an append exactly when it was present before or is the appended key |
| FormInputs.TextareaDefaultsValues | includes/class.formInput.php:241-245 | after the defaults, `rows` and `cols` hold the caller's values when given and 5 and 125 otherwise, and the caller's entries come first, unchanged |
| FormInputs.DefaultsPresent | includes/class.formInput.php:241-245 | every default key is present after the defaults are added |
| FormInputs.DefaultsPresentNoChange | includes/class.formInput.php:241-245 | when every default key is already present, adding the defaults changes nothing |
| FormInputs.TextareaDefaultsIdempotent | includes/class.formInput.php:241-245 | adding the textarea defaults a second time changes nothing |
| FormInputs.FormInput.TextareaInput | includes/class.formInput.php:239-258 | the method sets the attributes to the caller's with the defaults added and renders the textarea from that new state |
| FormInputs.Views | includes/class.formInput.php:213-232 | a select shows at most one option per entry |
| FormInputs.ViewsAppend | includes/class.formInput.php:213-232 | the options of two lists one after the other are the options of each, in order |
| FormInputs.ViewsOfEntry | includes/class.formInput.php:213-229 | options keep list order; a plain "no-default" entry adds nothing and every other entry adds exactly one option |
| FormInputs.OptionLabels | includes/class.formInput.php:222-229 | a plain string option submits itself, and its label differs from it at most in the first character; a keyed option submits its value and shows its key through ucfirst; a plain non-string shows its own text |
| FormInputs.ViewsFromEntries | includes/class.formInput.php:213-231 | every option shown comes from some entry of the list that is not a marker |
| FormInputs.SelectedIff | includes/class.formInput.php:231 | an option is marked selected exactly when a current value is set and its text equals the option's value |
| FormInputs.SelectedCount | includes/class.formInput.php:231 | with distinct option values, one option is selected when the current value matches one of them and none otherwise |
| FormInputs.CountSelectedDistinct | includes/class.formInput.php:231 | when all selected options have the same value and values are distinct, at most one option is selected |
| FormInputs.ProviderOptions | includes/class.formInput.php:189-212 | options from a provider never get the placeholder, and a provider that throws leaves the select with no options |
| FormInputs.OptionTagCount | includes/class.formInput.php:210-232 | the select holds one `<option>` per shown entry plus the placeholder when shown, so one per entry when there are no markers |
| FormInputs.NoMarkersAllShown | includes/class.formInput.php:215-217 | a list without "no-default" markers shows every entry |
| FormInputs.ColWidth | includes/class.formInput.php:164 | the column width is half the base width when that is over 6, and the base width otherwise |
| FormInputs.ColumnClass | includes/class.formInput.php:159-258 | basic and select groups open with the halved width and `mb-3 pe-2`; the textarea group opens with the unhalved base width and `mb-3` |
| FormInputs.GroupOpenShape | includes/class.formInput.php:169 | a form group's opening tells itself apart from a row's: its class starts with the `f` of `form-group` where a row's starts with `r` |
| FormInputs.WrapIff | includes/class.formInput.php:145-147 | a text that opens with a form group does not open with a row, and its row-wrapped form does |
| FormInputs.RowWrapperIff | includes/class.formInput.php:125-150 | the output opens with `<div class="row">` exactly when the base width is over 6, and is then the rendered group wrapped in exactly one row |
| FormInputs.DefaultWidth | includes/class.formInput.php:164 | under the default base width of 12 (line 102) the column class is `col-md-6` |
| FormInputs.RenderTwice | includes/class.formInput.php:125-150 | rendering changes the state only once: a second rendering gives the same output and leaves the same state |
| FormInputs.FormInput.ToString | includes/class.formInput.php:125-150 | the method dispatches on the type (select, textarea, anything else), wraps in a row when the base width is over 6, and leaves the state prepared for a repeat |
| FormInputs.BasicTagType | includes/class.formInput.php:172 | a basic input's first attribute is `type="{type}"` |
| FormInputs.ChunkPresence | includes/class.formInput.php:159-176 | a value attribute is written exactly when the value is not empty; the help paragraph (lines 285-294) and the `aria-describedby` reference appear exactly when the help text is neither null nor empty |
| FormInputs.BasicChunksSeparated | includes/class.formInput.php:172 | in the corrected tag (`BasicHtmlCorrected`) every attribute starts with a space, so for any field with a value the tag reads `class="form-control" value="…"` |
| FormInputs.ValueAttributeGlued | includes/class.formInput.php:172 | as written (what `BasicHtml` and so `Render` write), every field with a non-empty value gets `class="form-control"value="…"`, with no space before the value; a field without a value gets the corrected tag |
| FormInputs.JoinedNotRequired | includes/class.formInput.php:280 | two or more tokens joined by spaces never form the single word `required` |
| FormInputs.AttrStringNotRequired | includes/class.formInput.php:268-283 | the attribute string is `required` only when some entry is a truthy `required` |
| FormInputs.LeadNotRequired | includes/class.formInput.php:172 | the last of the type, id, name, class and value attributes is never ` required` |
| FormInputs.OptionalNotRequired | includes/class.formInput.php:172 | without a truthy `required` entry, neither the extra attributes nor the help reference are ` required` |
| FormInputs.RequiredAtEnd | includes/class.formInput.php:172 | the basic input's last attribute is ` required` exactly when the field is required, given no truthy `required` entry among the extra attributes |
| FormInputs.FormInput.constructor | includes/class.formInput.php:93-116 | the object holds its arguments; a null options, help text or attribute list leaves the field at null |
| FileInputs.FileGroupShape | includes/class.fileInput.php:39-44 | the chooser's group opens with a column class (a `c` where a row's opening has its `r`), and ends with `</label></div>` |
| FileInputs.WrappedShape | includes/class.fileInput.php:35-48 | inside a row, the text after the caption opens with `<div class="row mb-3">` and ends with `</div></div>` |
| FileInputs.BareShape | includes/class.fileInput.php:35-48 | without a row, the text after the caption opens with the column and does not end with `</div></div>` |
| FileInputs.WrapperShape | includes/class.fileInput.php:35-48 | the row is opened after the caption exactly when it wraps the group, and closed at the end exactly then |
| FileInputs.FileRowWrapperIff | includes/class.fileInput.php:35-48 | `<div class="row mb-3">` and its closing `</div>` are both written exactly when the base width is over 6 |
| FileInputs.FileChunksIff | includes/class.fileInput.php:41 | `accept` is written exactly when it is not empty, `multiple` exactly for a multi-file control, and `required` exactly for a required one, as the last attribute |
| FileInputs.FileColumnWidths | includes/class.fileInput.php:21-27 | the column width is 6 under the default base width, 4.5 for a base width of 9 and 5 for a base width of 5 |
| FileInputs.FileInput.constructor | includes/class.fileInput.php:13-28 | the parent is built with type `file`, no value and no options; the column width is computed once from the base width |
| FileInputs.FileInput.ToString | includes/class.fileInput.php:30-53 | the output starts with the label text in a `<p class="form-text">` paragraph, ahead of the row and the group |
| Submission.Bound | index.php:54-61 | a variable is bound exactly for the schema names that were posted; a non-numeric string is scrubbed and anything else is bound as posted |
| Submission.BindPostFields | index.php:54-61 | the binding loop defines exactly the bound variables |
| Submission.CurrentValue | index.php:313 | a field gets no value exactly when its variable is unset or an empty list; a posted string is passed as itself and a non-empty list as PHP's `Array` |
| Submission.ShownAgain | index.php:309-318 | after a failed submission a posted text field is shown again with its bound value: scrubbed unless numeric |
| Submission.Gathered | index.php:74-90 | at most one record per upload field |
| Submission.GatherFiles | index.php:74-90 | the loop collects the kept uploads in field order, their content escaped |
| Submission.GatheredSlots | index.php:75-90 | kept uploads take consecutive slots from 0: the resume first when kept, then the personal statement |
| Submission.FileColumns | index.php:110-116 | n files give exactly 4n file columns |
| Submission.ColumnList | index.php:97-121 | there are 8 fixed columns, 4 per file and `submitted` |
| Submission.BuildColumnString | index.php:97-121 | the loops and the concatenation build the parenthesised, comma-joined column list |
| Submission.ColumnJoin | index.php:119-120 | the column string is the fixed columns, then the file columns when there are any, then `, submitted` |
| Submission.NoFileColumns | index.php:120 | without files the file part is left out: the fixed columns and then `submitted` |
| Submission.FileColumnsAt | index.php:111-115 | file column 4i+k is key k of the entry followed by the slot number i |
| Submission.ColumnSlot | index.php:97-121 | column 8+4i+k is `filename{i}`, `size{i}`, `filetype{i}` or `content{i}` |
| Submission.ColumnAt | index.php:97-121 | the file columns start after the eight fixed ones |
| Submission.FileValues | index.php:127-129 | n files give exactly 4n values |
| Submission.HeadValues | index.php:124 | the identifier, the six applicant fields and the scholarships are eight values |
| Submission.InsertValuesJoined | index.php:124-132 | the text of the values is the value list joined by commas, ending in `NOW()` |
| Submission.ValuesMatchColumns | index.php:97-132 | there are as many values as columns: 8 + 4n + 1 |
| Submission.FileValuesAt | index.php:127-129 | file value 4i+k is field k of file i, quoted |
| Submission.ValueAt | index.php:124-132 | the file values start after the eight head values |
| Submission.ValueSlot | index.php:124-132 | value 8+4i+k is field k of file i |
| Submission.SlotAlignment | index.php:110-129 | every file value sits at the position of its column |
| Submission.HeadText | index.php:124 | the head of the values is the quoted identifier, applicant fields and scholarships, separated by `, ` |
| Submission.ValuesStep | index.php:127-129 | one more file adds its four quoted fields to the values text |
| Submission.BuildInsertSql | index.php:96-132 | the statement the page builds is `INSERT INTO womenstudies`, the column string, and the values one file at a time, ending in `NOW()` |
| Submission.MessageForCode | index.php:198-209 | a failed email gives the `info` message and any other code the `danger` message; neither is the gate or the success message |
| Submission.Filenames | includes/email-body.php:35-36 | the email's link texts are the stored file names, in slot order |
| Submission.InsertAttempt | index.php:124-185 | the row is stored exactly when the INSERT succeeds; the email goes out only after it; only full success adds the success message and throws nothing |
| Submission.TryOutcome | index.php:48-186 | a thrown exception leaves no message from the try block; the statement is built exactly when the connection opened and a scholarship was chosen |
| Submission.Caught | index.php:188-217 | the catch block appends the message for the thrown code after what the try block added |
| Submission.SubmissionOutcome | index.php:42-225 | a submission ends with exactly one message and a page view without one with none and no statement; the success message appears exactly when the email went out, which implies the row is stored; the email exists exactly when the row is stored |
| Submission.TryBlock | index.php:48-186 | the try block run step by step has the effect of TryOutcome |
| Submission.AttemptInsert | index.php:124-185 | the INSERT and email steps have the effect of InsertAttempt |
| Submission.ProcessSubmission | index.php:42-225 | handling a request has the effect of SubmissionOutcome |
| Submission.OutcomeReach | index.php:42-225 | the statement is built, the row stored and the email sent exactly on the paths that lead there; the form is shown again exactly when nothing was stored |
| Submission.GateBlocks | index.php:64-71 | without a scholarship (and the check again at line 96) only the `danger` gate message is shown, and nothing is inserted or mailed |
| Submission.FailureMessages | index.php:135-209 | a failed INSERT shows the database message and sends no email; a failed email after a stored row shows the `info` message |
| Submission.InsertedStatement | index.php:93-132 | the statement run is built from the bound fields, the chosen scholarships and the gathered files under the stripped identifier |
| Submission.PartitionSchemaEntry | index.php:280-307 | the page's loop over a field schema gives the arguments of Partition |
| Submission.ExtrasWithoutKey | index.php:298-306 | a key no entry has is never among the extra attributes |
| Submission.PartitionExtras | index.php:298-306 | every key other than the six named ones is copied verbatim into the extra attributes, in schema order |
| Submission.PartitionProps | index.php:281-300 | a named key sets its constructor argument to its value; an absent one leaves the page's default |
| Submission.PropAssign | index.php:299-300 | setting one key changes that key's argument only |
| Submission.FieldOf | index.php:309-318 | the page builds each FormInput with base width 12, a help text and the partitioned extra attributes |
| Submission.GeneralInfoInputs | index.php:280-319 | the page echoes exactly one input per schema, the i-th rendered from the i-th schema |
| Submission.GeneralInfoSnoc | index.php:280-319 | one more schema appends its input after the earlier ones, so the inputs appear in schema order |
| Submission.GeneralInfoRows | index.php:280-319 | every schema's input is its form group wrapped in its own `<div class="row">` |
| EmailBody.Links | includes/email-body.php:35-36 | there is exactly one link per file, in file order, naming the file and carrying its index |
| EmailBody.LinkEntriesJoin | includes/email-body.php:35-38 | the loop's entries from any position concatenate to the remaining links joined by `<br />` |
| EmailBody.LinkListIsJoin | includes/email-body.php:35-38 | `<br />` separates consecutive links and never follows the last one |
| EmailBody.TwoLinks | includes/email-body.php:37 | with two files there is exactly one separator, between the two links |
| EmailBody.FilesRow | includes/email-body.php:31-41 | the "Submitted Files" row is present exactly when a file was stored |
| EmailBody.LinkParts | includes/email-body.php:36 | each link carries `auth={guid}`, `file={i}` and `pre='{first} {last}'`, and its text is the file name |
| Download.Slot | download.php:30 | the slot read is the intval of `file` and lies between 0 and 4 |
| Download.DisplayPrefix | download.php:31 | after `%27` and then `'` are removed, the prefix holds no single quote |
| Download.SelectList | download.php:34 | the query selects exactly four columns |
| Download.Headers | download.php:70-72 | there are three headers: the content type is the stored file type, the content length is the stored size, and the attachment name is the prefix, a dot and the stored file name |
| Download.DownloadResponse | download.php:9-74 | the answer is 400 exactly when a parameter is missing or the slot is outside 0..4; every error page's status is 400, 404 or 500 and is its exit code; a file is served only for a valid request over an open connection |
| Download.HandleDownload | download.php:9-74 | the script, step by step, gives DownloadResponse's answer |
| Download.SlotBounds | download.php:9-13 | slots 5 and -1 are refused with 400; a non-numeric slot is read as slot 0; slot 4 is accepted |
| Download.PrefixUnquoted | download.php:31 | quotes written directly around a name without quotes or `%` are removed and the name comes back unchanged |
| Download.EscapedPrefix | download.php:31 | when the quotes around the name arrive escaped as `\'`, removing the quotes leaves the backslashes: the prefix is `\` + name + `\` |
| Download.EntityPrefix | download.php:31 | when the quotes arrive encoded as `&#039;`, nothing is removed and the prefix keeps both entities |
| Download.ResponseCases | download.php:37-74 | no row gives 404, false gives 500, and a row is served with its content as body and its headers |
| ScholarshipFunctions.GuidIsFiltered | includes/wgst-scholarship-functions.php:32 | stripping keeps every character other than `{`, `}` and `-`, in order, and leaves none of those three |
| ScholarshipFunctions.GuidIdempotent | includes/wgst-scholarship-functions.php:32 | stripping twice is stripping once |
| ScholarshipFunctions.ErrorTitles | includes/wgst-scholarship-functions.php:90-96 | the titles are `400 Bad Request`, `404 Not Found` and `500 Internal Server Error` |
| ScholarshipFunctions.GenerateErrorPage | includes/wgst-scholarship-functions.php:88-160 | the exit code is the response code, the document title and the heading are one and the same status line (the code and its reason phrase), and the message is the one passed in |
| ScholarshipFunctions.PageShowsTitle | includes/wgst-scholarship-functions.php:103-130 | a page whose title and heading agree prints that text inside `<title>` and then inside the condensed `<h1>`, and ends with the message in `<p class="h4">` |
| ScholarshipFunctions.ErrorPageShows | includes/wgst-scholarship-functions.php:88-160 | for 400, 404 and 500 the printed page carries the literal status line (`404 Not Found` etc.) as both the document title and the visible heading, ends with the message paragraph, and exits with that code |
| ScholarshipFunctions.LogFilePath | includes/wgst-scholarship-functions.php:73 | the log is `wgst-scholarship-error.log` directly inside the given directory |
| FileLabel.Substring | js/index.js:49-62 | JavaScript's substring clamps both ends to the string and swaps them when start is past end |
| FileLabel.LastIndexOf | js/index.js:60 | lastIndexOf gives the last position of the character, or -1 exactly when it does not occur |
| FileLabel.GetUploadedFileName | js/index.js:46-65 | the early-return loop over the separators gives UploadedFileName |
| FileLabel.FakePathShape | js/index.js:48 | the first twelve characters are the prefix exactly when the path starts with it |
| FileLabel.AfterSeparatorIsSuffix | js/index.js:59-64 | a name found after a separator is a suffix of the path |
| FileLabel.AfterSeparatorNone | js/index.js:59-65 | no name is found exactly when no separator occurs |
| FileLabel.AfterLast | js/index.js:60-62 | what follows the last occurrence of a separator is the rest of the path and holds no such separator |
| FileLabel.FakePathName | js/index.js:48-50 | with the browser's prefix the name is exactly the rest after it |
| FileLabel.SlashName | js/index.js:53-63 | without the prefix, when `/` occurs the name is exactly what follows the last `/`: the path ends with `/` + name, and the name holds no `/` |
| FileLabel.BackslashName | js/index.js:53-63 | without the prefix and `/`, when `\` occurs the name is exactly what follows the last `\`: the path ends with `\` + name, and the name holds neither slash |
| FileLabel.UploadedFileNameFacts | js/index.js:46-65 | the name is a suffix of the path; it is undefined exactly when the path has neither kind of slash; the browser's prefix gives the rest after it; otherwise a `/` path ends with `/` + name and the name has no `/`, and a `\`-only path ends with `\` + name and the name has neither slash |
| FileLabel.DisplayedLabelCases | js/index.js:32 | an empty value or a bare name shows `Choose file...`; a chosen file behind the prefix shows its name unless that name is empty |
| Slots.PieceParts | download.php:9 | a `key=value` parameter whose key has no `=` reads back as that key and value |
| Slots.LinkQueryPieces | includes/email-body.php:36 | the link's query is its three parameters joined with `&` |
| Slots.ParseThree | download.php:9 | three parameters with non-empty keys give a map of those three keys, the later one winning |
| Slots.ParseJoinedThree | download.php:9 | three `&`-joined parameters read back as those three entries when no key holds `=` or `&` and no value holds `&` |
| Slots.LinkQueryParses | download.php:9 | the download page reads back exactly the identifier, the slot and the quoted name that the link built at includes/email-body.php:36 carries |
| Slots.LinkRequestValid | download.php:9-13 | an email link (includes/email-body.php:36) for slots 0 to 4 is a valid request for that same slot |
| Slots.SelectReadsSlot | download.php:34 | the download selects the four columns of slot k, each under its key's name |
| Slots.InsertAndSelectAgree | index.php:110-129 | the INSERT writes entry i's four values into exactly the columns the download reads for slot i (download.php:34) |
| Slots.DownloadRoundTrip | download.php:9-74 | when the database holds the row the INSERT stored (index.php:75-129), following the email's link for slot k serves the bytes uploaded into slot k with their size and (for a type without backslashes) their original MIME type; the attachment is named by the prefix made from the scrubbed `pre`, a dot and the uploaded file's name; the link's text (includes/email-body.php:35-36) is that file's name |
| Slots.DownloadedName | download.php:31-72 | for an applicant `First Last` the attachment is `\First Last\.<file>` when scrub escapes the link's quotes as `\'`, and `&#039;First Last&#039;.<file>` when htmlentities has encoded them |

## Left out

- The MySQL connection, query execution and result fetching are outcomes given as inputs (`Services`, `Database`). The `mysqli_report` strict mode and `get_db` are not modelled. Under strict mode a failing query throws rather than returning false; the model keeps both outcomes.
- PHPMailer's configuration and recipients (the faculty list, `IS_DEV`, the CAH Web address) are left out. Only the subject, the body and whether sending succeeded are modelled.
- `scrub` is an uninterpreted function. The round trip assumes only that it leaves the identifier (hex digits) unchanged. What it makes of the quoted name is left open: DownloadedName states the two outcomes, the quotes escaped by mysqli_real_escape_string (`\'`, before PHP 8.1) or encoded by htmlentities (`&#039;`, from PHP 8.1).
- `com_create_guid` is random; its output is an input of GetNewGuid.
- Dates, time zones and the log's timestamps are locale- and clock-dependent and are left out. So are the error-log file writes: only the log's path and the entry's prefix are modelled.
- Static markup is left out: the page's head, header, footer and other boilerplate, the error page's body beyond its title, heading and message, and the whitespace between template tags.
- The reCAPTCHA check and the cURL scholarship feed are foreign services.
- The FileInput loop at index.php:361-389 only passes fixed arguments to the FileInput constructor, which is modelled.
- DOM event wiring in js/index.js (lines 2-10) and the attribute update itself are left out. The label text chosen is modelled.
- After a caught exception, download.php passes a null `$fileInfo` to `extract` and goes on to send headers. That depends on PHP runtime warnings; the model stops at `LoggedFailure` with the log prefix.
- Query-string parsing models `&`-separated `key=value` pairs: a later key wins and an empty key is ignored. Percent-decoding, `+` as space, bracketed array keys and array-valued `$_GET` entries are not modelled.
- `intval` is modelled for decimal integers with leading whitespace and a sign. Overflow past PHP_INT_MAX and any other numeric prefix are not modelled.
- PHP's loose `==` (the `no-default` test, the placeholder test, the `selected` test, the `required` key test) is modelled as equality of the compared values' string forms. These PHP 8 comparisons differ and are not modelled:
  - int against string (`0 == "a"` is false, `5 == "05"` is true);
  - bool against string: a plain `true` option equals `"no-default"`, so PHP skips it and, as the first option, suppresses the placeholder;
  - two numeric strings compare as numbers: `"1.0" == "1"`, so a current value `05` selects an option of value `5`;
  - an array against a string is never equal, so a posted list's `Array` never selects an option in PHP, while the model compares the text `Array`.
- Variable variables: `$$name` in the binding loop can overwrite any of the page's own variables. The model keeps the bound variables in their own map.
- A provider name that does not name a callable function raises an Error, not an Exception, in PHP. The model only has providers that return or throw.
- `fread` with a size of 0 is an error in PHP; the model reads the uploaded bytes as given.
- ExceptionCode: the enum file is not part of this model. A driver error's code is assumed to differ from the page's two codes.
- The binding loop over `range(0, count($generalInfo) - 1)` for an empty schema (where PHP's range counts down to -1) is not modelled; the model binds over the schema's field names.
- SQL injection and the lack of authorization on downloads are not behaviour to preserve and are not modelled.
- FormInputs.RequiredAtEnd: stated only when no extra attribute is a truthy `required` entry, because such an entry also writes a `required` token.
- FileInputs.FileInput.ToString: states only the output's opening. The parent's value, help text and extra attributes are never rendered, but that holds only by construction: the view the output is built from has no such fields.

## Findings

| source | as written | input that shows it | evidently intended | confidence | as-written member | corrected member |
|---|---|---|---|---|---|---|
| includes/class.formInput.php:172 | the basic input writes `value="…"` with no space before it, straight after `class="form-control"` | a text field with value `x`: the tag contains `class="form-control"value="x"` | ` value="…"` with a leading space, like every other attribute | not executed | FormInputs.ValueAttributeGlued | FormInputs.BasicChunksSeparated |

`BasicHtml`, and through it `Render`, `FormInput.ToString` and the general-information section, write the tag as the source does (`BasicChunksAsWritten`).
`BasicHtmlCorrected` is the intended tag (`BasicChunks`).
