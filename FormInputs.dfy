/** The schema-driven form renderer: a FormInput turns one form field's schema
    into a Bootstrap form group holding a basic input, a select or a textarea.
    Whitespace between tags in the PHP templates is not part of the model; the
    text of tags and attributes is. */
module FormInputs {
  import opened Common
  import opened PhpValues

  /** One entry of a select's option list: a plain scalar, or a one-key map
      whose key is shown and whose value is submitted. */
  datatype OptionEntry = Plain(v: Scalar) | Keyed(key: Scalar, value: Scalar)

  /** Where a select's options come from: nothing given (null), a static list,
      or the name of a provider function in the form's namespace. */
  datatype OptionSource = Absent | Listed(entries: seq<OptionEntry>) | Provided(provider: string)

  /** What a provider function did when it was called. */
  datatype ProviderOutcome = Returned(entries: seq<OptionEntry>) | Threw

  /** A schema value: a scalar, or a list (as the `options` key holds). */
  datatype Value = Atom(a: Scalar) | Items(entries: seq<OptionEntry>)

  /** One additional attribute, an entry of a PHP array in insertion order. */
  datatype Attr = Attr(key: string, value: Value)

  /** The state of a FormInput object. */
  datatype Field = Field(
    name: string,
    inputType: string,
    labelText: string,
    value: Option<Scalar>,
    options: OptionSource,
    isRequired: bool,
    formText: Option<string>,
    additionalAttrs: Option<seq<Attr>>,
    baseWidth: int)

  /** One rendered select option. */
  datatype OptionView = OptionView(value: string, labelText: string, selected: bool)

  // ---------------------------------------------------------------- PHP arrays of attributes

  /** PHP's string conversion of a schema value; an array prints as "Array". */
  function ValueText(v: Value): string {
    match v
    case Atom(a) => ScalarText(a)
    case Items(_) => "Array"
  }

  predicate ValueTruthy(v: Value) {
    match v
    case Atom(a) => !ScalarEmpty(a)
    case Items(e) => |e| > 0
  }

  predicate HasKey(attrs: seq<Attr>, key: string) {
    exists i :: 0 <= i < |attrs| && attrs[i].key == key
  }

  /** `$attrs[$key]`: the value under the first entry with that key. */
  function Lookup(attrs: seq<Attr>, key: string): (r: Option<Value>)
    ensures r.None? <==> !HasKey(attrs, key)
  {
    if |attrs| == 0 then None
    else if attrs[0].key == key then Some(attrs[0].value)
    else
      assert forall i :: 1 <= i < |attrs| ==> attrs[i] == attrs[1..][i - 1];
      Lookup(attrs[1..], key)
  }

  lemma HasKeyCons(attrs: seq<Attr>, key: string)
    requires attrs != []
    ensures HasKey(attrs, key) <==> attrs[0].key == key || HasKey(attrs[1..], key)
  {
    if HasKey(attrs, key) && attrs[0].key != key {
      var i :| 0 <= i < |attrs| && attrs[i].key == key;
      assert attrs[1..][i - 1].key == key;
    }
    if HasKey(attrs[1..], key) {
      var i :| 0 <= i < |attrs| - 1 && attrs[1..][i].key == key;
      assert attrs[i + 1].key == key;
    }
  }

  /** `$attrs[$key] = $value`: an existing entry is overwritten in place, a new one appended. */
  function Put(attrs: seq<Attr>, key: string, value: Value): (r: seq<Attr>)
    ensures |r| == if HasKey(attrs, key) then |attrs| else |attrs| + 1
  {
    if |attrs| == 0 then [Attr(key, value)]
    else if attrs[0].key == key then [Attr(key, value)] + attrs[1..]
    else
      HasKeyCons(attrs, key);
      [attrs[0]] + Put(attrs[1..], key, value)
  }

  // ---------------------------------------------------------------- parseAdditionalAttrs

  /** One attribute as HTML: `key="value"`, or the bare word `required` for a
      truthy `required` entry. */
  function AttrToken(a: Attr): string {
    if a.key == "required" && ValueTruthy(a.value) then "required"
    else a.key + "=\"" + ValueText(a.value) + "\""
  }

  function Tokens(attrs: seq<Attr>): (r: seq<string>)
    ensures |r| == |attrs|
  {
    seq(|attrs|, i requires 0 <= i < |attrs| => AttrToken(attrs[i]))
  }

  /** The additional attributes as one HTML attribute string. */
  function AttrString(attrs: Option<seq<Attr>>): string {
    if attrs.None? || |attrs.value| == 0 then "" else Join(Tokens(attrs.value), " ")
  }

  /** A token is the bare word `required` exactly for a truthy `required` entry. */
  lemma BareRequiredToken(a: Attr)
    ensures AttrToken(a) == "required" <==> a.key == "required" && ValueTruthy(a.value)
  {
    if !(a.key == "required" && ValueTruthy(a.value)) {
      var t := AttrToken(a);
      assert t[|a.key|] == '=';
      assert '=' !in "required";
    }
  }

  /** The attribute string is empty exactly when there are no additional attributes. */
  lemma AttrStringEmptyIff(attrs: Option<seq<Attr>>)
    ensures AttrString(attrs) == "" <==> attrs.None? || attrs.value == []
    ensures !EmptyString(AttrString(attrs)) <==> attrs.Some? && attrs.value != []
  {
    if attrs.Some? && attrs.value != [] {
      var t := Tokens(attrs.value);
      var a := attrs.value[0];
      assert t[0] == AttrToken(a);
      BareRequiredToken(a);
      if AttrToken(a) != "required" {
        assert |AttrToken(a)| >= 3;
      }
      assert |t[0]| >= 2;
      JoinPrefix(t, " ");
    }
  }

  /** The first part begins the join. */
  lemma {:induction false} JoinPrefix(parts: seq<string>, sep: string)
    requires parts != []
    ensures StartsWith(Join(parts, sep), parts[0])
  {
  }

  /** Appending one attribute appends one token after a single space. */
  lemma AttrStringSnoc(attrs: seq<Attr>, a: Attr)
    ensures AttrString(Some(attrs + [a])) ==
      if attrs == [] then AttrToken(a) else AttrString(Some(attrs)) + " " + AttrToken(a)
  {
    assert Tokens(attrs + [a]) == Tokens(attrs) + [AttrToken(a)];
    JoinSnoc(Tokens(attrs), AttrToken(a), " ");
  }

  // ---------------------------------------------------------------- textarea defaults

  const TextareaDefaults: seq<Attr> := [Attr("rows", Atom(Int(5))), Attr("cols", Atom(Int(125)))]

  /** Each default added under its key unless that key is already set. */
  function WithDefaults(attrs: seq<Attr>, defaults: seq<Attr>): seq<Attr>
    decreases |defaults|
  {
    if |defaults| == 0 then attrs
    else
      var before := WithDefaults(attrs, defaults[..|defaults| - 1]);
      var d := defaults[|defaults| - 1];
      if HasKey(before, d.key) then before else Put(before, d.key, d.value)
  }

  /** The attributes a textarea renders with: `rows=5` and `cols=125` unless set. */
  function TextareaAttrs(attrs: Option<seq<Attr>>): seq<Attr> {
    WithDefaults(if attrs.Some? then attrs.value else [], TextareaDefaults)
  }

  lemma PutNewKey(attrs: seq<Attr>, key: string, value: Value)
    requires !HasKey(attrs, key)
    ensures Put(attrs, key, value) == attrs + [Attr(key, value)]
  {
    if |attrs| > 0 {
      HasKeyCons(attrs, key);
      PutNewKey(attrs[1..], key, value);
      assert [attrs[0]] + (attrs[1..] + [Attr(key, value)]) == attrs + [Attr(key, value)];
    }
  }

  /** Defaults only ever append: the caller's entries stay where they were, unchanged. */
  lemma {:induction false} DefaultsKeepCallerAttrs(attrs: seq<Attr>, defaults: seq<Attr>)
    ensures |attrs| <= |WithDefaults(attrs, defaults)|
    ensures WithDefaults(attrs, defaults)[..|attrs|] == attrs
  {
    if |defaults| > 0 {
      var before := WithDefaults(attrs, defaults[..|defaults| - 1]);
      var d := defaults[|defaults| - 1];
      DefaultsKeepCallerAttrs(attrs, defaults[..|defaults| - 1]);
      if !HasKey(before, d.key) {
        PutNewKey(before, d.key, d.value);
        assert (before + [d])[..|attrs|] == before[..|attrs|];
      }
    }
  }

  lemma LookupSnoc(attrs: seq<Attr>, a: Attr, key: string)
    ensures Lookup(attrs + [a], key) ==
      if HasKey(attrs, key) then Lookup(attrs, key)
      else if a.key == key then Some(a.value) else None
  {
    if |attrs| > 0 {
      assert (attrs + [a])[1..] == attrs[1..] + [a];
      LookupSnoc(attrs[1..], a, key);
      HasKeyCons(attrs, key);
    } else {
      assert attrs + [a] == [a];
    }
  }

  lemma HasKeySnoc(attrs: seq<Attr>, a: Attr, key: string)
    ensures HasKey(attrs + [a], key) <==> HasKey(attrs, key) || a.key == key
  {
    if HasKey(attrs + [a], key) && !HasKey(attrs, key) {
      var i :| 0 <= i < |attrs| + 1 && (attrs + [a])[i].key == key;
      assert i == |attrs|;
    }
    if HasKey(attrs, key) {
      var i :| 0 <= i < |attrs| && attrs[i].key == key;
      assert (attrs + [a])[i].key == key;
    }
    if a.key == key {
      assert (attrs + [a])[|attrs|].key == key;
    }
  }

  /** After the defaults, `rows` and `cols` are set: to the caller's value when
      the caller gave one, otherwise to 5 and 125. */
  lemma TextareaDefaultsValues(attrs: Option<seq<Attr>>)
    ensures var given := if attrs.Some? then attrs.value else [];
      var r := TextareaAttrs(attrs);
      && Lookup(r, "rows") == (if HasKey(given, "rows") then Lookup(given, "rows") else Some(Atom(Int(5))))
      && Lookup(r, "cols") == (if HasKey(given, "cols") then Lookup(given, "cols") else Some(Atom(Int(125))))
      && |given| <= |r| && r[..|given|] == given
  {
    var given := if attrs.Some? then attrs.value else [];
    var d0, d1 := TextareaDefaults[0], TextareaDefaults[1];
    assert TextareaDefaults[..1] == [d0];
    assert [d0][..0] == [];
    var r0 := WithDefaults(given, [d0]);
    assert WithDefaults(given, [d0][..0]) == given;
    if !HasKey(given, "rows") {
      PutNewKey(given, "rows", d0.value);
      LookupSnoc(given, d0, "rows");
      LookupSnoc(given, d0, "cols");
      HasKeySnoc(given, d0, "cols");
    }
    assert Lookup(r0, "rows") == (if HasKey(given, "rows") then Lookup(given, "rows") else Some(Atom(Int(5))));
    assert Lookup(r0, "cols") == Lookup(given, "cols");
    assert HasKey(r0, "cols") == HasKey(given, "cols");
    if !HasKey(r0, "cols") {
      PutNewKey(r0, "cols", d1.value);
      LookupSnoc(r0, d1, "rows");
      LookupSnoc(r0, d1, "cols");
    }
    DefaultsKeepCallerAttrs(given, TextareaDefaults);
  }

  /** Once every default key is present, adding the defaults changes nothing. */
  lemma {:induction false} DefaultsPresentNoChange(attrs: seq<Attr>, defaults: seq<Attr>)
    requires forall i :: 0 <= i < |defaults| ==> HasKey(attrs, defaults[i].key)
    ensures WithDefaults(attrs, defaults) == attrs
  {
    if |defaults| > 0 {
      DefaultsPresentNoChange(attrs, defaults[..|defaults| - 1]);
    }
  }

  /** Every default key is present after the defaults are added. */
  lemma {:induction false} DefaultsPresent(attrs: seq<Attr>, defaults: seq<Attr>)
    ensures forall i :: 0 <= i < |defaults| ==> HasKey(WithDefaults(attrs, defaults), defaults[i].key)
  {
    if |defaults| > 0 {
      var front := defaults[..|defaults| - 1];
      var before := WithDefaults(attrs, front);
      var d := defaults[|defaults| - 1];
      DefaultsPresent(attrs, front);
      if !HasKey(before, d.key) {
        PutNewKey(before, d.key, d.value);
        forall i | 0 <= i < |defaults|
          ensures HasKey(before + [d], defaults[i].key)
        {
          HasKeySnoc(before, d, defaults[i].key);
          if i < |defaults| - 1 {
            assert defaults[i] == front[i];
          }
        }
      } else {
        forall i | 0 <= i < |defaults|
          ensures HasKey(before, defaults[i].key)
        {
          if i < |defaults| - 1 {
            assert defaults[i] == front[i];
          }
        }
      }
    }
  }

  /** Applying the textarea defaults a second time changes nothing. */
  lemma TextareaDefaultsIdempotent(attrs: Option<seq<Attr>>)
    ensures TextareaAttrs(Some(TextareaAttrs(attrs))) == TextareaAttrs(attrs)
  {
    var given := if attrs.Some? then attrs.value else [];
    DefaultsPresent(given, TextareaDefaults);
    DefaultsPresentNoChange(TextareaAttrs(attrs), TextareaDefaults);
  }

  // ---------------------------------------------------------------- select options

  /** The options a select lists: a static list as given; otherwise what the
      provider returns (a null source calls the provider with the empty name),
      and nothing when the provider throws. */
  function ResolveOptions(source: OptionSource, providers: string -> ProviderOutcome): seq<OptionEntry> {
    var outcome := match source
      case Listed(entries) => Returned(entries)
      case Provided(name) => providers(name)
      case Absent => providers("");
    match outcome
    case Returned(entries) => entries
    case Threw => []
  }

  /** The "-- Please Select --" placeholder is shown for a static list whose
      first entry is not the plain scalar "no-default". */
  predicate ShowsPlaceholder(source: OptionSource) {
    source.Listed? && !(|source.entries| > 0 && Skipped(source.entries[0]))
  }

  const Placeholder := "<option value=\"\">-- Please Select -- </option>"

  /** A plain "no-default" entry is a marker, not an option. */
  predicate Skipped(e: OptionEntry) {
    e.Plain? && ScalarText(e.v) == "no-default"
  }

  predicate Selected(current: Option<Scalar>, value: Scalar) {
    current.Some? && ScalarText(current.value) == ScalarText(value)
  }

  function LabelOf(s: Scalar): string {
    if s.Str? then Ucfirst(s.s) else ScalarText(s)
  }

  function ViewOf(e: OptionEntry, current: Option<Scalar>): OptionView {
    match e
    case Plain(v) => OptionView(ScalarText(v), LabelOf(v), Selected(current, v))
    case Keyed(k, v) => OptionView(ScalarText(v), LabelOf(k), Selected(current, v))
  }

  /** The options the select shows, in list order, without the "no-default" markers. */
  function Views(entries: seq<OptionEntry>, current: Option<Scalar>): (r: seq<OptionView>)
    ensures |r| <= |entries|
  {
    if |entries| == 0 then []
    else (if Skipped(entries[0]) then [] else [ViewOf(entries[0], current)]) + Views(entries[1..], current)
  }

  function OptionTag(v: OptionView): string {
    "<option value=\"" + v.value + "\"" + (if v.selected then " selected" else "") + ">" + v.labelText + "</option>"
  }

  /** The `<option>` elements inside the select, placeholder first when shown. */
  function OptionTags(f: Field, entries: seq<OptionEntry>): seq<string> {
    var views := Views(entries, f.value);
    (if ShowsPlaceholder(f.options) then [Placeholder] else [])
      + seq(|views|, i requires 0 <= i < |views| => OptionTag(views[i]))
  }

  lemma {:induction false} ViewsAppend(a: seq<OptionEntry>, b: seq<OptionEntry>, current: Option<Scalar>)
    ensures Views(a + b, current) == Views(a, current) + Views(b, current)
  {
    if a == [] {
      assert a + b == b;
    } else {
      TailOfAppend(a, b);
      ViewsAppend(a[1..], b, current);
      var head := if Skipped(a[0]) then [] else [ViewOf(a[0], current)];
      AppendAssoc(head, Views(a[1..], current), Views(b, current));
    }
  }

  /** Options keep their list order; a "no-default" marker contributes nothing
      and every other entry exactly one option. */
  lemma ViewsOfEntry(a: seq<OptionEntry>, e: OptionEntry, b: seq<OptionEntry>, current: Option<Scalar>)
    ensures Views(a + [e] + b, current) ==
      Views(a, current) + (if Skipped(e) then [] else [ViewOf(e, current)]) + Views(b, current)
  {
    ViewsAppend(a + [e], b, current);
    ViewsAppend(a, [e], current);
    assert [e][1..] == [];
  }

  /** Every option shown comes from an entry of the list, with its value and label. */
  lemma {:induction false} ViewsFromEntries(entries: seq<OptionEntry>, current: Option<Scalar>, k: nat)
    requires k < |Views(entries, current)|
    ensures exists j :: 0 <= j < |entries| && !Skipped(entries[j]) && Views(entries, current)[k] == ViewOf(entries[j], current)
  {
    var e := entries[0];
    var rest := Views(entries[1..], current);
    var head := if Skipped(e) then [] else [ViewOf(e, current)];
    assert Views(entries, current) == head + rest;
    if !Skipped(e) && k == 0 {
      assert Views(entries, current)[0] == ViewOf(entries[0], current);
    } else {
      var k' := k - |head|;
      assert Views(entries, current)[k] == rest[k'];
      ViewsFromEntries(entries[1..], current, k');
      var j :| 0 <= j < |entries[1..]| && !Skipped(entries[1..][j]) && rest[k'] == ViewOf(entries[1..][j], current);
      assert entries[1..][j] == entries[j + 1];
    }
  }

  /** An option is marked selected exactly when a current value is set and its
      text equals the option's value. */
  lemma SelectedIff(entries: seq<OptionEntry>, current: Option<Scalar>, k: nat)
    requires k < |Views(entries, current)|
    ensures var v := Views(entries, current)[k];
      v.selected <==> current.Some? && ScalarText(current.value) == v.value
  {
    ViewsFromEntries(entries, current, k);
  }

  function CountSelected(views: seq<OptionView>): nat {
    if |views| == 0 then 0 else (if views[0].selected then 1 else 0) + CountSelected(views[1..])
  }

  predicate DistinctValues(views: seq<OptionView>) {
    forall i, j :: 0 <= i < j < |views| ==> views[i].value != views[j].value
  }

  /** With distinct option values, exactly one option is selected when the
      current value matches one of them, and none otherwise. */
  lemma {:induction false} SelectedCount(entries: seq<OptionEntry>, current: Option<Scalar>)
    requires DistinctValues(Views(entries, current))
    ensures var views := Views(entries, current);
      CountSelected(views) == if exists k :: 0 <= k < |views| && views[k].selected then 1 else 0
    ensures var views := Views(entries, current);
      (exists k :: 0 <= k < |views| && views[k].selected) <==>
      (current.Some? && exists k :: 0 <= k < |views| && views[k].value == ScalarText(current.value))
  {
    var views := Views(entries, current);
    forall k | 0 <= k < |views|
      ensures views[k].selected <==> current.Some? && ScalarText(current.value) == views[k].value
    {
      SelectedIff(entries, current, k);
    }
    CountSelectedDistinct(views);
  }

  lemma {:induction false} CountSelectedDistinct(views: seq<OptionView>)
    requires DistinctValues(views)
    requires forall i, j :: 0 <= i < |views| && 0 <= j < |views| && views[i].selected && views[j].selected ==> views[i].value == views[j].value
    ensures CountSelected(views) == if exists k :: 0 <= k < |views| && views[k].selected then 1 else 0
  {
    if |views| > 0 {
      var rest := views[1..];
      forall i, j | 0 <= i < j < |rest| ensures rest[i].value != rest[j].value {
        assert views[i + 1].value != views[j + 1].value;
      }
      CountSelectedDistinct(rest);
      if views[0].selected {
        forall k | 0 <= k < |rest| ensures !rest[k].selected {
          assert rest[k] == views[k + 1];
        }
      } else {
        if exists k :: 0 <= k < |views| && views[k].selected {
          var k :| 0 <= k < |views| && views[k].selected;
          assert rest[k - 1].selected;
        }
      }
    }
  }

  // ---------------------------------------------------------------- the three renderers

  const RowOpen := "<div class=\"row\">"

  /** The width class of basic and select inputs: half the base width when it is over 6. */
  function ColWidth(baseWidth: int): (w: Number)
    ensures NumberValue(w) == if baseWidth > 6 then baseWidth as real / 2.0 else baseWidth as real
  {
    if baseWidth > 6 then Half(baseWidth) else Whole(baseWidth)
  }

  function GroupOpen(width: string, spacing: string): string {
    "<div class=\"form-group col-md-" + width + " " + spacing + "\">"
  }

  function LabelHtml(f: Field): string {
    "<label for=\"" + f.name + "\" class=\"form-label\">" + f.labelText + "</label>"
  }

  /** `maybePrintFormText` prints, and the control refers to, a help text that is neither null nor empty. */
  predicate FormTextShown(formText: Option<string>) {
    formText.Some? && !EmptyString(formText.value)
  }

  function FormTextHtml(f: Field): string {
    if FormTextShown(f.formText)
    then "<p class=\"form-text\" id=\"form-text-" + f.name + "\">" + f.formText.value + "</p>"
    else ""
  }

  predicate ValueEmpty(v: Option<Scalar>) {
    v.None? || ScalarEmpty(v.value)
  }

  /** The extra attributes and the `aria-describedby` reference, when present. */
  function OptionalChunks(f: Field, attrStr: string): seq<string> {
    (if !EmptyString(attrStr) then [" " + attrStr] else [])
    + (if FormTextShown(f.formText) then [" aria-describedby=\"form-text-" + f.name + "\""] else [])
  }

  /** The attributes every control ends with: the additional ones, the
      description reference and `required`. */
  function TailChunks(f: Field, attrStr: string): seq<string> {
    OptionalChunks(f, attrStr) + (if f.isRequired then [" required"] else [])
  }

  /** The type, id, name and class attributes every basic input starts with. */
  function FixedChunks(f: Field): seq<string> {
    [" type=\"" + f.inputType + "\"", " id=\"" + f.name + "\"", " name=\"" + f.name + "\"", " class=\"form-control\""]
  }

  /** The lead attributes of a basic input as line 172 of class.formInput.php
      writes them: the value attribute (when set) has no space before it, so it
      runs into the closing quote of `class`. */
  function LeadChunksAsWritten(f: Field): seq<string> {
    FixedChunks(f) + (if !ValueEmpty(f.value) then ["value=\"" + ScalarText(f.value.value) + "\""] else [])
  }

  /** The lead attributes with the value attribute separated like the others. */
  function LeadChunks(f: Field): seq<string> {
    FixedChunks(f) + (if !ValueEmpty(f.value) then [" value=\"" + ScalarText(f.value.value) + "\""] else [])
  }

  /** The attributes of the basic input the renderer writes. */
  function BasicChunksAsWritten(f: Field, attrStr: string): seq<string> {
    LeadChunksAsWritten(f) + TailChunks(f, attrStr)
  }

  /** The attributes of the basic input with the value attribute separated. */
  function BasicChunks(f: Field, attrStr: string): seq<string> {
    LeadChunks(f) + TailChunks(f, attrStr)
  }

  function BasicTag(f: Field, chunks: seq<string>): string {
    GroupOpen(NumberText(ColWidth(f.baseWidth)), "mb-3 pe-2")
    + (LabelHtml(f) + FormTextHtml(f) + "<input" + Concat(chunks) + ">" + "</div>")
  }

  /** `basicInput` as written. */
  function BasicHtml(f: Field, attrStr: string): string {
    BasicTag(f, BasicChunksAsWritten(f, attrStr))
  }

  /** `basicInput` with a space before the value attribute. */
  function BasicHtmlCorrected(f: Field, attrStr: string): string {
    BasicTag(f, BasicChunks(f, attrStr))
  }

  function SelectChunks(f: Field, attrStr: string): seq<string> {
    [" id=\"" + f.name + "\"", " name=\"" + f.name + "\"", " class=\"form-control\""] + TailChunks(f, attrStr)
  }

  function SelectHtml(f: Field, entries: seq<OptionEntry>, attrStr: string): string {
    GroupOpen(NumberText(ColWidth(f.baseWidth)), "mb-3 pe-2")
    + (LabelHtml(f) + FormTextHtml(f) + "<select" + Concat(SelectChunks(f, attrStr)) + ">"
       + Concat(OptionTags(f, entries)) + "</select>" + "</div>")
  }

  function TextareaChunks(f: Field, attrStr: string): seq<string> {
    [" id=\"" + f.name + "\"", " name=\"" + f.name + "\"", " class=\"form-control\""] + TailChunks(f, attrStr)
  }

  function TextareaHtml(f: Field, attrStr: string): string {
    GroupOpen(IntText(f.baseWidth), "mb-3")
    + (LabelHtml(f) + FormTextHtml(f) + "<textarea" + Concat(TextareaChunks(f, attrStr)) + ">"
       + (if ValueEmpty(f.value) then "" else ScalarText(f.value.value)) + "</textarea>" + "</div>")
  }

  /** The state after rendering: a textarea has had its defaults added. */
  function Prepared(f: Field): Field {
    if f.inputType == "textarea" then f.(additionalAttrs := Some(TextareaAttrs(f.additionalAttrs))) else f
  }

  /** The form group for the field, chosen by its type. */
  function Inner(f: Field, providers: string -> ProviderOutcome): string {
    var g := Prepared(f);
    var attrStr := AttrString(g.additionalAttrs);
    if g.inputType == "select" then SelectHtml(g, ResolveOptions(g.options, providers), attrStr)
    else if g.inputType == "textarea" then TextareaHtml(g, attrStr)
    else BasicHtml(g, attrStr)
  }

  /** What `__toString` returns for a field in state `f`. */
  function Render(f: Field, providers: string -> ProviderOutcome): string {
    var inner := Inner(f, providers);
    if f.baseWidth > 6 then RowOpen + inner + "</div>" else inner
  }

  // ---------------------------------------------------------------- properties of the rendering

  lemma PrefixOfSum(a: string, b: string)
    ensures StartsWith(a + b, a)
  {
    assert (a + b)[..|a|] == a;
  }

  /** Each renderer opens its form group with the column class: basic and
      select inputs use the halved width and `mb-3 pe-2`, the textarea the
      base width and `mb-3`. */
  lemma ColumnClass(f: Field, providers: string -> ProviderOutcome)
    ensures f.inputType == "textarea" ==> StartsWith(Inner(f, providers), GroupOpen(IntText(f.baseWidth), "mb-3"))
    ensures f.inputType != "textarea" ==>
      StartsWith(Inner(f, providers), GroupOpen(NumberText(ColWidth(f.baseWidth)), "mb-3 pe-2"))
  {
    var g := Prepared(f);
    var attrStr := AttrString(g.additionalAttrs);
    if g.inputType == "select" {
      var entries := ResolveOptions(g.options, providers);
      PrefixOfSum(GroupOpen(NumberText(ColWidth(f.baseWidth)), "mb-3 pe-2"),
        LabelHtml(g) + FormTextHtml(g) + "<select" + Concat(SelectChunks(g, attrStr)) + ">"
        + Concat(OptionTags(g, entries)) + "</select>" + "</div>");
    } else if g.inputType == "textarea" {
      PrefixOfSum(GroupOpen(IntText(f.baseWidth), "mb-3"),
        LabelHtml(g) + FormTextHtml(g) + "<textarea" + Concat(TextareaChunks(g, attrStr)) + ">"
        + (if ValueEmpty(g.value) then "" else ScalarText(g.value.value)) + "</textarea>" + "</div>");
    } else {
      PrefixOfSum(GroupOpen(NumberText(ColWidth(f.baseWidth)), "mb-3 pe-2"),
        LabelHtml(g) + FormTextHtml(g) + "<input" + Concat(BasicChunksAsWritten(g, attrStr)) + ">" + "</div>");
    }
  }

  /** Every form group opens with `<div class="form-group`: an `f` at index 12. */
  lemma GroupOpenShape(width: string, spacing: string)
    ensures var open := GroupOpen(width, spacing); |open| > 17 && open[12] == 'f'
  {
    var lead := "<div class=\"form-group col-md-";
    assert GroupOpen(width, spacing) == lead + (width + " " + spacing + "\">");
    assert lead[12] == 'f';
  }

  /** A text that opens with such a group does not open with a row, and the
      row-wrapped text does. */
  lemma WrapIff(open: string, inner: string, wrapped: bool)
    requires |open| > 17 && open[12] == 'f' && StartsWith(inner, open)
    ensures var out := if wrapped then RowOpen + inner + "</div>" else inner;
      (StartsWith(out, RowOpen) <==> wrapped) && !StartsWith(inner, RowOpen)
  {
    assert inner[12] == open[12];
    assert RowOpen[12] == 'r';
    if wrapped {
      PrefixOfSum(RowOpen, inner + "</div>");
      AppendAssoc(RowOpen, inner, "</div>");
    }
  }

  /** The output is wrapped in a row container exactly when the base width is
      over 6, and then in exactly one. */
  lemma RowWrapperIff(f: Field, providers: string -> ProviderOutcome)
    ensures StartsWith(Render(f, providers), RowOpen) <==> f.baseWidth > 6
    ensures f.baseWidth > 6 ==> Render(f, providers) == RowOpen + Inner(f, providers) + "</div>"
    ensures !StartsWith(Inner(f, providers), RowOpen)
  {
    ColumnClass(f, providers);
    var width := if f.inputType == "textarea" then IntText(f.baseWidth) else NumberText(ColWidth(f.baseWidth));
    var spacing := if f.inputType == "textarea" then "mb-3" else "mb-3 pe-2";
    GroupOpenShape(width, spacing);
    WrapIff(GroupOpen(width, spacing), Inner(f, providers), f.baseWidth > 6);
  }

  /** Under the default base width of 12 the column class is `col-md-6`. */
  lemma DefaultWidth()
    ensures NumberText(ColWidth(12)) == "6"
  {
    assert ColWidth(12) == Whole(6);
  }

  /** Rendering a second time renders the same thing and leaves the state as the first render left it. */
  lemma RenderTwice(f: Field, providers: string -> ProviderOutcome)
    ensures Prepared(Prepared(f)) == Prepared(f)
    ensures Render(Prepared(f), providers) == Render(f, providers)
  {
    if f.inputType == "textarea" {
      TextareaDefaultsIdempotent(f.additionalAttrs);
    }
  }

  /** A placeholder is never shown for provider options, and a provider that
      throws leaves the select with no options at all. */
  lemma ProviderOptions(f: Field, providers: string -> ProviderOutcome)
    requires !f.options.Listed?
    ensures !ShowsPlaceholder(f.options)
    ensures providers(if f.options.Provided? then f.options.provider else "").Threw? ==>
      OptionTags(f, ResolveOptions(f.options, providers)) == []
  {
  }

  /** The number of `<option>` elements: one per non-marker entry, plus the placeholder when shown. */
  lemma {:induction false} OptionTagCount(f: Field, entries: seq<OptionEntry>)
    ensures |OptionTags(f, entries)| ==
      |Views(entries, f.value)| + (if ShowsPlaceholder(f.options) then 1 else 0)
    ensures (forall j :: 0 <= j < |entries| ==> !Skipped(entries[j])) ==> |Views(entries, f.value)| == |entries|
  {
    if forall j :: 0 <= j < |entries| ==> !Skipped(entries[j]) {
      NoMarkersAllShown(entries, f.value);
    }
  }

  lemma {:induction false} NoMarkersAllShown(entries: seq<OptionEntry>, current: Option<Scalar>)
    requires forall j :: 0 <= j < |entries| ==> !Skipped(entries[j])
    ensures |Views(entries, current)| == |entries|
  {
    if |entries| > 0 {
      assert forall j :: 0 <= j < |entries[1..]| ==> entries[1..][j] == entries[j + 1];
      NoMarkersAllShown(entries[1..], current);
    }
  }

  /** The type, id and name attributes as one text. */
  function Idents(f: Field): string {
    " type=\"" + f.inputType + "\" id=\"" + f.name + "\" name=\"" + f.name + "\""
  }

  lemma ConcatFour(a: string, b: string, c: string, d: string)
    ensures Concat([a, b, c, d]) == a + b + c + d
  {
    assert Concat([d]) == d + Concat([]);
    assert [c, d][1..] == [d];
    assert Concat([c, d]) == c + d;
    assert [b, c, d][1..] == [c, d];
    assert Concat([b, c, d]) == b + (c + d);
    assert [a, b, c, d][1..] == [b, c, d];
  }

  lemma FixedText(f: Field)
    ensures Concat(FixedChunks(f)) == Idents(f) + " class=\"form-control\""
  {
    ConcatFour(" type=\"" + f.inputType + "\"", " id=\"" + f.name + "\"", " name=\"" + f.name + "\"", " class=\"form-control\"");
  }

  /** In the corrected tag every attribute starts with a space, so the
      attributes are always separated: a value follows ` class="form-control"`
      after a space. */
  lemma BasicChunksSeparated(f: Field, attrStr: string)
    ensures forall i :: 0 <= i < |BasicChunks(f, attrStr)| ==> StartsWith(BasicChunks(f, attrStr)[i], " ")
    ensures !ValueEmpty(f.value) ==>
      Concat(BasicChunks(f, attrStr)) ==
      Idents(f) + " class=\"form-control\" value=\"" + ScalarText(f.value.value) + "\"" + Concat(TailChunks(f, attrStr))
  {
    var chunks := BasicChunks(f, attrStr);
    forall i | 0 <= i < |chunks| ensures StartsWith(chunks[i], " ") {
      assert chunks[i][0] == ' ';
    }
    if !ValueEmpty(f.value) {
      var v := " value=\"" + ScalarText(f.value.value) + "\"";
      ConcatAppend(FixedChunks(f) + [v], TailChunks(f, attrStr));
      ConcatAppend(FixedChunks(f), [v]);
      FixedText(f);
    }
  }

  /** As written, every basic input with a value writes its value attribute
      straight after ` class="form-control"`, with no space between them; without
      a value the written tag is the corrected one. */
  lemma ValueAttributeGlued(f: Field, attrStr: string)
    ensures !ValueEmpty(f.value) ==>
      Concat(BasicChunksAsWritten(f, attrStr)) ==
      Idents(f) + " class=\"form-control\"value=\"" + ScalarText(f.value.value) + "\"" + Concat(TailChunks(f, attrStr))
    ensures ValueEmpty(f.value) ==> BasicChunksAsWritten(f, attrStr) == BasicChunks(f, attrStr)
  {
    if !ValueEmpty(f.value) {
      var v := "value=\"" + ScalarText(f.value.value) + "\"";
      ConcatAppend(FixedChunks(f) + [v], TailChunks(f, attrStr));
      ConcatAppend(FixedChunks(f), [v]);
      FixedText(f);
    }
  }

  /** Any type other than select and textarea gives an `<input>` whose first
      attribute is that type. */
  lemma BasicTagType(f: Field, attrStr: string)
    ensures StartsWith(Concat(BasicChunksAsWritten(f, attrStr)), " type=\"" + f.inputType + "\"")
  {
    var chunks := BasicChunksAsWritten(f, attrStr);
    assert chunks[0] == " type=\"" + f.inputType + "\"";
    PrefixOfSum(chunks[0], Concat(chunks[1..]));
  }

  /** A value attribute is written exactly when the value is not empty, the
      help text's reference exactly when the help text is shown, and the help
      paragraph only then. */
  lemma ChunkPresence(f: Field, attrStr: string)
    ensures |LeadChunksAsWritten(f)| == if ValueEmpty(f.value) then 4 else 5
    ensures !ValueEmpty(f.value) ==> LeadChunksAsWritten(f)[4] == "value=\"" + ScalarText(f.value.value) + "\""
    ensures |OptionalChunks(f, attrStr)| == (if EmptyString(attrStr) then 0 else 1) + (if FormTextShown(f.formText) then 1 else 0)
    ensures FormTextShown(f.formText) ==>
      OptionalChunks(f, attrStr)[|OptionalChunks(f, attrStr)| - 1] == " aria-describedby=\"form-text-" + f.name + "\""
    ensures FormTextHtml(f) != "" <==> FormTextShown(f.formText)
  {
  }

  /** A plain string option is submitted as itself and shown with its first
      letter capitalised; a keyed option is submitted as its value and shown
      as its capitalised key. */
  lemma OptionLabels(e: OptionEntry, current: Option<Scalar>)
    ensures e.Plain? && e.v.Str? && |e.v.s| > 0 ==>
      var view := ViewOf(e, current);
      view.value == e.v.s && |view.labelText| == |e.v.s| && view.labelText[1..] == e.v.s[1..]
    ensures e.Keyed? ==>
      ViewOf(e, current).value == ScalarText(e.value)
      && ViewOf(e, current).labelText == (if e.key.Str? then Ucfirst(e.key.s) else ScalarText(e.key))
    ensures e.Plain? && !e.v.Str? ==> ViewOf(e, current).labelText == ViewOf(e, current).value
  {
  }

  /** Two or more tokens joined by spaces are never the single word `required`. */
  lemma JoinedNotRequired(toks: seq<string>)
    requires |toks| >= 2
    ensures Join(toks, " ") != "required"
  {
    var j := Join(toks, " ");
    assert j == toks[0] + " " + Join(toks[1..], " ");
    assert j[|toks[0]|] == ' ';
    assert forall k :: 0 <= k < |"required"| ==> "required"[k] != ' ';
  }

  /** The attribute string is the bare word `required` only when some entry is
      a truthy `required`. */
  lemma AttrStringNotRequired(attrs: seq<Attr>)
    requires attrs != []
    requires forall i :: 0 <= i < |attrs| ==> !(attrs[i].key == "required" && ValueTruthy(attrs[i].value))
    ensures AttrString(Some(attrs)) != "required"
  {
    var toks := Tokens(attrs);
    if |toks| == 1 {
      BareRequiredToken(attrs[0]);
      assert Join(toks, " ") == toks[0] == AttrToken(attrs[0]);
    } else {
      JoinedNotRequired(toks);
    }
  }

  /** A chunk list ends with ` required` exactly when the flag adds it, as long
      as no earlier chunk that can be last is ` required` itself. */
  lemma LastChunk(front: seq<string>, optional: seq<string>, required: bool)
    requires front != [] && front[|front| - 1] != " required"
    requires forall k :: 0 <= k < |optional| ==> optional[k] != " required"
    ensures var chunks := front + (optional + (if required then [" required"] else []));
      chunks[|chunks| - 1] == " required" <==> required
  {
  }

  lemma LeadNotRequired(f: Field)
    ensures var lead := LeadChunksAsWritten(f); lead != [] && lead[|lead| - 1] != " required"
  {
    var lead := LeadChunksAsWritten(f);
    assert lead[|lead| - 1][1] == 'c' || lead[|lead| - 1][1] == 'a';
  }

  lemma OptionalNotRequired(f: Field)
    requires f.additionalAttrs.Some? ==> forall i :: 0 <= i < |f.additionalAttrs.value| ==>
      !(f.additionalAttrs.value[i].key == "required" && ValueTruthy(f.additionalAttrs.value[i].value))
    ensures var optional := OptionalChunks(f, AttrString(f.additionalAttrs));
      forall k :: 0 <= k < |optional| ==> optional[k] != " required"
  {
    var attrStr := AttrString(f.additionalAttrs);
    if !EmptyString(attrStr) {
      AttrStringEmptyIff(f.additionalAttrs);
      AttrStringNotRequired(f.additionalAttrs.value);
      assert (" " + attrStr)[1..] == attrStr;
    }
    if FormTextShown(f.formText) {
      assert (" aria-describedby=\"form-text-" + f.name + "\"")[1] == 'a';
    }
  }

  /** The control ends in ` required` exactly when the field is required,
      provided no additional attribute is itself a truthy `required` entry. */
  lemma RequiredAtEnd(f: Field)
    requires f.additionalAttrs.Some? ==> forall i :: 0 <= i < |f.additionalAttrs.value| ==>
      !(f.additionalAttrs.value[i].key == "required" && ValueTruthy(f.additionalAttrs.value[i].value))
    ensures var chunks := BasicChunksAsWritten(f, AttrString(f.additionalAttrs));
      chunks[|chunks| - 1] == " required" <==> f.isRequired
  {
    LeadNotRequired(f);
    OptionalNotRequired(f);
    LastChunk(LeadChunksAsWritten(f), OptionalChunks(f, AttrString(f.additionalAttrs)), f.isRequired);
  }

  // ---------------------------------------------------------------- the object

  /** A form input whose fields the renderer reads and the textarea renderer updates. */
  class FormInput {
    var name: string
    var inputType: string
    var labelText: string
    var value: Option<Scalar>
    var options: OptionSource
    var isRequired: bool
    var formText: Option<string>
    var additionalAttrs: Option<seq<Attr>>
    var baseWidth: int

    function State(): Field
      reads this
    {
      Field(name, inputType, labelText, value, options, isRequired, formText, additionalAttrs, baseWidth)
    }

    /** Stores the arguments; options, help text and additional attributes are
        only taken over when they are not null, so the fields keep their initial null. */
    constructor (name: string, inputType: string, labelText: string, value: Option<Scalar>,
                 options: OptionSource := Absent, isRequired: bool := false,
                 formText: Option<string> := None, additionalAttrs: Option<seq<Attr>> := None,
                 baseWidth: int := 12)
      ensures State() == Field(name, inputType, labelText, value, options, isRequired, formText, additionalAttrs, baseWidth)
    {
      this.name := name;
      this.inputType := inputType;
      this.labelText := labelText;
      this.value := value;
      this.isRequired := isRequired;
      this.options := Absent;
      this.formText := None;
      this.additionalAttrs := None;
      this.baseWidth := baseWidth;
      if options != Absent {
        this.options := options;
      }
      if formText.Some? {
        this.formText := formText;
      }
      if additionalAttrs.Some? {
        this.additionalAttrs := additionalAttrs;
      }
    }

    /** The additional attributes, one token per entry in order, joined by single spaces. */
    method ParseAdditionalAttrs() returns (attrStr: string)
      ensures attrStr == AttrString(additionalAttrs)
    {
      attrStr := "";
      if additionalAttrs.Some? && |additionalAttrs.value| > 0 {
        var entries := additionalAttrs.value;
        var attrs: seq<string> := [];
        for i := 0 to |entries|
          invariant |attrs| == i
          invariant forall k :: 0 <= k < i ==> attrs[k] == AttrToken(entries[k])
        {
          attrs := attrs + [AttrToken(entries[i])];
        }
        assert attrs == Tokens(entries);
        attrStr := if |attrs| > 0 then Join(attrs, " ") else "";
      }
    }

    /** Sets `rows` to 5 and `cols` to 125 where the caller left them unset, then renders the textarea. */
    method TextareaInput() returns (html: string)
      modifies this`additionalAttrs
      ensures additionalAttrs == Some(TextareaAttrs(old(additionalAttrs)))
      ensures html == TextareaHtml(State(), AttrString(additionalAttrs))
    {
      var given := if additionalAttrs.Some? then additionalAttrs.value else [];
      var attrs := given;
      for i := 0 to |TextareaDefaults|
        invariant attrs == WithDefaults(given, TextareaDefaults[..i])
      {
        var d := TextareaDefaults[i];
        assert TextareaDefaults[..i + 1][..i] == TextareaDefaults[..i];
        if !HasKey(attrs, d.key) {
          attrs := Put(attrs, d.key, d.value);
        }
      }
      assert TextareaDefaults[..|TextareaDefaults|] == TextareaDefaults;
      additionalAttrs := Some(attrs);
      var attrStr := ParseAdditionalAttrs();
      html := TextareaHtml(State(), attrStr);
    }

    /** `__toString`: the renderer chosen by type, wrapped in a row when the base width is over 6. */
    method ToString(providers: string -> ProviderOutcome) returns (output: string)
      modifies this`additionalAttrs
      ensures State() == Prepared(old(State()))
      ensures output == Render(old(State()), providers)
    {
      if inputType == "select" {
        var entries := ResolveOptions(options, providers);
        var attrStr := ParseAdditionalAttrs();
        output := SelectHtml(State(), entries, attrStr);
      } else if inputType == "textarea" {
        output := TextareaInput();
      } else {
        var attrStr := ParseAdditionalAttrs();
        output := BasicHtml(State(), attrStr);
      }
      if baseWidth > 6 {
        output := RowOpen + output + "</div>";
      }
    }
  }
}
