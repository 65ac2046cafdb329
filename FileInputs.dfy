/** The file-upload control: a FileInput is a FormInput of type `file` that
    renders its own markup, a custom file chooser in a column, optionally
    inside a row. */
module FileInputs {
  import opened Common
  import opened PhpValues
  import opened FormInputs

  /** What the file control's markup depends on. */
  datatype FileView = FileView(
    name: string,
    inputType: string,
    labelText: string,
    isRequired: bool,
    baseWidth: int,
    isMulti: bool,
    accept: string,
    colWidth: Number)

  /** The text the chooser shows on its button. */
  const ChooserCaption := "Choose file..."

  const RowMb3Open := "<div class=\"row mb-3\">"

  /** The attributes of the `<input>`: the fixed ones, then `accept` when it is
      not empty, `multiple` and `required` when set. */
  function FileChunks(v: FileView): seq<string> {
    [" type=\"" + v.inputType + "\"", " id=\"" + v.name + "\"", " name=\"" + v.name + "\"", " class=\"custom-file-input\""]
    + (if !EmptyString(v.accept) then [" accept=\"" + v.accept + "\""] else [])
    + (if v.isMulti then [" multiple"] else [])
    + (if v.isRequired then [" required"] else [])
  }

  function FileGroup(v: FileView): string {
    "<div class=\"col-md-" + NumberText(v.colWidth) + " form-group\">"
    + "<label class=\"custom-file\">" + "<input" + Concat(FileChunks(v)) + ">"
    + "<span class=\"custom-file-control\" data-after=\"" + ChooserCaption + "\"></span>"
    + "</label>" + "</div>"
  }

  function Caption(v: FileView): string {
    "<p class=\"form-text\">" + v.labelText + "</p>"
  }

  /** The label as a paragraph, then the column, wrapped in a row when the base width is over 6. */
  function FileHtml(v: FileView): string {
    Caption(v) + (if v.baseWidth > 6 then RowMb3Open + FileGroup(v) + "</div>" else FileGroup(v))
  }

  // ---------------------------------------------------------------- properties

  /** Every group opens with `<div class="col-md-`, a `c` at index 12, and
      ends with `</label></div>`: an `l` twelve characters from the end. */
  lemma FileGroupShape(v: FileView)
    ensures var g := FileGroup(v);
      |g| > 17 && g[12] == 'c' && g[|g| - 12] == 'l' && EndsWith(g, "</div>")
  {
    var g := FileGroup(v);
    var front := "<div class=\"col-md-" + NumberText(v.colWidth) + " form-group\">"
      + "<label class=\"custom-file\">" + "<input" + Concat(FileChunks(v)) + ">"
      + "<span class=\"custom-file-control\" data-after=\"" + ChooserCaption + "\"></span>";
    assert g == front + "</label></div>";
    assert g[|g| - 14..] == "</label></div>";
    assert g[|g| - 12] == g[|g| - 14..][2];
    assert g[|g| - 6..] == g[|g| - 14..][8..];
  }

  lemma EndsWithPrepend(x: string, a: string, suffix: string)
    requires EndsWith(a, suffix)
    ensures EndsWith(x + a, suffix)
  {
    assert (x + a)[|x + a| - |suffix|..] == a[|a| - |suffix|..];
  }

  lemma CloseTwice(x: string)
    requires EndsWith(x, "</div>")
    ensures EndsWith(x + "</div>", "</div></div>")
  {
    assert (x + "</div>")[|x| - 6..] == x[|x| - 6..] + "</div>";
  }

  /** The group inside the row: the row opens it and `</div></div>` ends it. */
  lemma WrappedShape(caption: string, g: string)
    requires EndsWith(g, "</div>")
    ensures var html := caption + (RowMb3Open + g + "</div>");
      StartsWith(html[|caption|..], RowMb3Open) && EndsWith(html, "</div></div>")
  {
    var body := RowMb3Open + g + "</div>";
    assert (caption + body)[|caption|..] == body;
    assert body[..|RowMb3Open|] == RowMb3Open;
    EndsWithPrepend(caption + RowMb3Open, g, "</div>");
    CloseTwice(caption + RowMb3Open + g);
    assert caption + body == caption + RowMb3Open + g + "</div>";
  }

  /** The bare group: it opens with a column, not a row, and does not end `</div></div>`. */
  lemma BareShape(caption: string, g: string)
    requires |g| > 17 && g[12] == 'c' && g[|g| - 12] == 'l'
    ensures var html := caption + g;
      !StartsWith(html[|caption|..], RowMb3Open) && !EndsWith(html, "</div></div>")
  {
    var html := caption + g;
    assert html[|caption|..] == g;
    assert g[12] != RowMb3Open[12];
    assert html[|html| - 12] == g[|g| - 12];
  }

  /** Wrapping a group that opens with a column and ends `</label></div>`. */
  lemma WrapperShape(caption: string, g: string, wrapped: bool)
    requires |g| > 17 && g[12] == 'c' && g[|g| - 12] == 'l' && EndsWith(g, "</div>")
    ensures var html := caption + (if wrapped then RowMb3Open + g + "</div>" else g);
      && (StartsWith(html[|caption|..], RowMb3Open) <==> wrapped)
      && (EndsWith(html, "</div></div>") <==> wrapped)
  {
    if wrapped {
      WrappedShape(caption, g);
    } else {
      BareShape(caption, g);
    }
  }

  /** The row wrapper is opened after the caption exactly when the base width
      is over 6, and closed at the end exactly then. */
  lemma FileRowWrapperIff(v: FileView)
    ensures var body := FileHtml(v)[|Caption(v)|..];
      StartsWith(body, RowMb3Open) <==> v.baseWidth > 6
    ensures EndsWith(FileHtml(v), "</div></div>") <==> v.baseWidth > 6
  {
    FileGroupShape(v);
    WrapperShape(Caption(v), FileGroup(v), v.baseWidth > 6);
  }

  /** `accept` is written exactly when it is neither empty nor "0", `multiple`
      exactly for a multi-file control and `required` exactly for a required one. */
  lemma FileChunksIff(v: FileView)
    ensures (exists i :: 0 <= i < |FileChunks(v)| && StartsWith(FileChunks(v)[i], " accept=")) <==> !EmptyString(v.accept)
    ensures " multiple" in FileChunks(v) <==> v.isMulti
    ensures " required" in FileChunks(v) <==> v.isRequired
    ensures FileChunks(v)[|FileChunks(v)| - 1] == " required" <==> v.isRequired
  {
    var c := FileChunks(v);
    assert forall i :: 0 <= i < 4 ==> c[i][1] != 'a' && c[i][1] != 'm' && c[i][1] != 'r';
    assert |c| >= 4;
    if !EmptyString(v.accept) {
      assert c[4] == " accept=\"" + v.accept + "\"";
      assert StartsWith(c[4], " accept=");
    }
    forall i | 0 <= i < |c| && StartsWith(c[i], " accept=")
      ensures !EmptyString(v.accept)
    {
      assert c[i][1] == 'a';
    }
    forall i | 0 <= i < |c| && c[i] == " multiple"
      ensures v.isMulti
    {
      assert c[i][1] == 'm';
    }
    forall i | 0 <= i < |c| && c[i] == " required"
      ensures v.isRequired
    {
      assert c[i][1] == 'r';
    }
    assert c[|c| - 1][1] == 'r' ==> v.isRequired;
  }

  /** The column class uses the halved width for base widths over 6: `col-md-6`
      by default and a half-unit class such as `col-md-4.5` for odd widths. */
  lemma FileColumnWidths()
    ensures NumberText(ColWidth(12)) == "6"
    ensures NumberText(ColWidth(9)) == "4.5"
    ensures NumberText(ColWidth(5)) == "5"
  {
    assert ColWidth(12) == Whole(6);
    assert ColWidth(9) == AndAHalf(4);
    assert ColWidth(5) == Whole(5);
  }

  // ---------------------------------------------------------------- the object

  /** A FileInput: the inherited FormInput state lives in `parent`. */
  class FileInput {
    const parent: FormInput
    var isMulti: bool
    var accept: string
    var colWidth: Number

    function View(): FileView
      reads this, parent
    {
      FileView(parent.name, parent.inputType, parent.labelText, parent.isRequired, parent.baseWidth,
               isMulti, accept, colWidth)
    }

    /** A FormInput of type `file` with no value and no options; the column width
        is worked out once, from the base width, when the object is built. */
    constructor (name: string, labelText: string, isMulti: bool := false, accept: string := "",
                 isRequired: bool := false, formText: Option<string> := None,
                 additionalAttrs: Option<seq<Attr>> := None, baseWidth: int := 12)
      ensures fresh(parent)
      ensures parent.State() == Field(name, "file", labelText, None, Absent, isRequired, formText, additionalAttrs, baseWidth)
      ensures this.isMulti == isMulti && this.accept == accept
      ensures colWidth == ColWidth(baseWidth)
    {
      var base := new FormInput(name, "file", labelText, None, Absent, isRequired, formText, additionalAttrs, baseWidth);
      parent := base;
      this.isMulti := isMulti;
      this.accept := accept;
      colWidth := if base.baseWidth > 6 then Half(base.baseWidth) else Whole(base.baseWidth);
    }

    /** `__toString`: the label paragraph first, then the chooser for the named field. */
    function ToString(): (html: string)
      reads this, parent
      ensures StartsWith(html, "<p class=\"form-text\">" + parent.labelText + "</p>")
    {
      var html := FileHtml(View());
      PrefixOfSum(Caption(View()), html[|Caption(View())|..]);
      assert html == Caption(View()) + html[|Caption(View())|..];
      html
    }
  }
}
