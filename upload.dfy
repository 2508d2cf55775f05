/** The upload page: one petition PDF (dropped or picked), a list of supporting files
    each with an optional description, and the submission of all of it as one multipart
    form. */
module UploadPetition {
  import opened Options
  import opened Text
  import opened Endpoints

  /** `/\.[^/.]+$/` matches at `d`: a dot followed by one or more characters, up to the
      end, none of which is a slash or a dot. */
  ghost predicate ExtensionAt(name: String, d: int) {
    && 0 <= d && d + 1 < |name|
    && name[d] == '.'
    && forall j | d < j < |name| :: name[j] != '/' && name[j] != '.'
  }

  /** The dot that starts an extension is the only possible match position. */
  lemma ExtensionAtUnique(name: String, d: int, e: int)
    requires ExtensionAt(name, d) && ExtensionAt(name, e)
    ensures d == e
  {
    ExtensionRunAt(name, d);
    ExtensionRunAt(name, e);
  }

  /** Length of the longest suffix free of slashes and dots. */
  function ExtensionRun(s: String): (n: nat)
    ensures n <= |s|
    ensures forall j | |s| - n <= j < |s| :: s[j] != '/' && s[j] != '.'
    ensures n < |s| ==> s[|s| - n - 1] == '/' || s[|s| - n - 1] == '.'
  {
    if s == [] || s[|s| - 1] == '/' || s[|s| - 1] == '.' then 0
    else
      var p := s[..|s| - 1];
      var n := ExtensionRun(p) + 1;
      assert forall j | |s| - n <= j < |s| - 1 :: s[j] == p[j];
      n
  }

  /** Where an extension starts, the suffix free of slashes and dots is the extension. */
  lemma ExtensionRunAt(name: String, d: int)
    requires ExtensionAt(name, d)
    ensures ExtensionRun(name) == |name| - d - 1
  {
  }

  lemma ExtensionRunAll(name: String)
    ensures forall d | ExtensionAt(name, d) :: ExtensionRun(name) == |name| - d - 1
  {
    forall d | ExtensionAt(name, d) ensures ExtensionRun(name) == |name| - d - 1 {
      ExtensionRunAt(name, d);
    }
  }

  /** The title suggested for a file: its name with the extension removed, when it has
      one; the name unchanged otherwise. */
  function StripExtension(name: String): (r: String)
    ensures r != name <==> exists d | 0 <= d < |name| :: ExtensionAt(name, d)
    ensures r != name ==> ExtensionAt(name, |r|) && r == name[..|r|]
  {
    var n := ExtensionRun(name);
    ExtensionRunAll(name);
    if 0 < n < |name| && name[|name| - n - 1] == '.' then
      var r := name[..|name| - n - 1];
      assert ExtensionAt(name, |r|);
      r
    else
      name
  }

  /** Only the last extension goes, and a name whose only dot is trailing keeps it. */
  lemma StripExtensionExamples(report: String, archive: String, trailing: String, hidden: String)
    requires report == "peticao.pdf" && archive == "autos.tar.gz"
    requires trailing == "versao." && hidden == ".pdf"
    ensures StripExtension(report) == "peticao"
    ensures StripExtension(archive) == "autos.tar"
    ensures StripExtension(trailing) == trailing
    ensures StripExtension(hidden) == ""
  {
    StripAt(report, 7);
    StripAt(archive, 9);
    StripAt(hidden, 0);
  }

  lemma StripAt(name: String, d: nat)
    requires ExtensionAt(name, d)
    ensures StripExtension(name) == name[..d]
  {
    var r := StripExtension(name);
    ExtensionAtUnique(name, |r|, d);
  }

  datatype FileItem = FileItem(file: File, description: String)

  /** Newly chosen supporting files, each with an empty description. */
  function NewItems(files: seq<File>): (items: seq<FileItem>)
    ensures |items| == |files|
    ensures forall i | 0 <= i < |files| :: items[i] == FileItem(files[i], "")
  {
    seq(|files|, i requires 0 <= i < |files| => FileItem(files[i], ""))
  }

  /** `prev.filter((_, i) => i !== idx)`: the item at position `idx` is dropped. */
  function RemoveAt(items: seq<FileItem>, idx: int): (r: seq<FileItem>)
    ensures |r| <= |items|
  {
    if items == [] then []
    else (if idx == 0 then [] else [items[0]]) + RemoveAt(items[1..], idx - 1)
  }

  /** Filtering by position removes exactly the one item, or nothing when `idx` is not a
      position of the list. */
  lemma {:induction false} RemoveAtSplices(items: seq<FileItem>, idx: int)
    ensures 0 <= idx < |items| ==> RemoveAt(items, idx) == items[..idx] + items[idx + 1..]
    ensures !(0 <= idx < |items|) ==> RemoveAt(items, idx) == items
  {
    if items != [] {
      RemoveAtSplices(items[1..], idx - 1);
      if idx == 0 {
        assert items[idx + 1..] == items[1..];
      } else if 0 < idx < |items| {
        assert items[..idx] == [items[0]] + items[1..][..idx - 1];
        assert items[idx + 1..] == items[1..][idx..];
      } else {
        assert items == [items[0]] + items[1..];
      }
    }
  }

  /** `updateDesc`: the description at `idx` becomes `text`; every file, and every other
      description, stays. */
  function SetDescription(items: seq<FileItem>, idx: int, text: String): (r: seq<FileItem>)
    ensures |r| == |items|
    ensures forall i | 0 <= i < |r| :: r[i].file == items[i].file
    ensures forall i | 0 <= i < |r| && i != idx :: r[i] == items[i]
    ensures 0 <= idx < |r| ==> r[idx].description == text
  {
    seq(|items|, i requires 0 <= i < |items| =>
      if i == idx then items[i].(description := text) else items[i])
  }

  function Descriptions(items: seq<FileItem>): (ds: seq<String>)
    ensures |ds| == |items|
    ensures forall i | 0 <= i < |items| :: ds[i] == items[i].description
  {
    seq(|items|, i requires 0 <= i < |items| => items[i].description)
  }

  /** The `subsidy_descriptions` field: all descriptions joined by commas. */
  function DescriptionsField(items: seq<FileItem>): String {
    Join(Descriptions(items), ',')
  }

  /** The server can split the field back into one description per file, in order, as
      long as no description contains a comma. */
  lemma DescriptionsRoundTrip(items: seq<FileItem>)
    requires |items| >= 1
    requires forall i | 0 <= i < |items| :: ',' !in items[i].description
    ensures Split(DescriptionsField(items), ',') == Descriptions(items)
    ensures Count(DescriptionsField(items), ',') == |items| - 1
  {
    SplitJoin(Descriptions(items), ',');
    CountJoin(Descriptions(items), ',');
  }

  /** A comma inside a description is indistinguishable from a separator: one file
      described "a,b" sends the same field as two files described "a" and "b". */
  lemma CommaIsAmbiguous(one: FileItem, two: FileItem, three: FileItem)
    requires one.description == "a,b" && two.description == "a" && three.description == "b"
    ensures DescriptionsField([one]) == DescriptionsField([two, three])
  {
    assert Descriptions([one]) == ["a,b"];
    var two_three := Descriptions([two, three]);
    assert two_three == ["a", "b"] && two_three[1..] == ["b"];
    assert Join(two_three, ',') == "a" + [','] + "b";
  }

  /** Without supporting files the field is still sent, empty. */
  lemma NoSubsidiesField()
    ensures DescriptionsField([]) == ""
  {
    assert Descriptions([]) == [];
  }

  /** The form `handleSubmit` builds: title, petition, every supporting file, then the
      joined descriptions. */
  function Form(title: String, petition: File, items: seq<FileItem>): seq<FormEntry> {
    [FormEntry("title", TextField(title)), FormEntry("petition_pdf", FileField(petition))]
    + SubsidyEntries(items)
    + [FormEntry("subsidy_descriptions", TextField(DescriptionsField(items)))]
  }

  function SubsidyEntries(items: seq<FileItem>): (entries: seq<FormEntry>)
    ensures |entries| == |items|
    ensures forall i | 0 <= i < |items| :: entries[i] == FormEntry("subsidies", FileField(items[i].file))
  {
    seq(|items|, i requires 0 <= i < |items| => FormEntry("subsidies", FileField(items[i].file)))
  }

  /** The values the server reads under one field name, in the order they were appended. */
  function Named(form: seq<FormEntry>, name: String): seq<FormValue> {
    if form == [] then []
    else (if form[0].name == name then [form[0].value] else []) + Named(form[1..], name)
  }

  lemma {:induction false} NamedAppend(a: seq<FormEntry>, b: seq<FormEntry>, name: String)
    ensures Named(a + b, name) == Named(a, name) + Named(b, name)
  {
    if a == [] {
      assert a + b == b;
    } else {
      var ab := a + b;
      var head := if a[0].name == name then [a[0].value] else [];
      assert ab[0] == a[0] && ab[1..] == a[1..] + b;
      NamedAppend(a[1..], b, name);
      assert Named(ab, name) == head + (Named(a[1..], name) + Named(b, name));
      assert Named(a, name) == head + Named(a[1..], name);
    }
  }

  lemma {:induction false} NamedSubsidies(items: seq<FileItem>, name: String)
    ensures name == "subsidies" ==> Named(SubsidyEntries(items), name) == Files(items)
    ensures name != "subsidies" ==> Named(SubsidyEntries(items), name) == []
  {
    if items != [] {
      var entries := SubsidyEntries(items);
      assert entries[1..] == SubsidyEntries(items[1..]);
      NamedSubsidies(items[1..], name);
      assert Files(items) == [FileField(items[0].file)] + Files(items[1..]);
    }
  }

  function Files(items: seq<FileItem>): (fs: seq<FormValue>)
    ensures |fs| == |items|
    ensures forall i | 0 <= i < |items| :: fs[i] == FileField(items[i].file)
  {
    seq(|items|, i requires 0 <= i < |items| => FileField(items[i].file))
  }

  lemma NamedSingle(e: FormEntry, name: String)
    ensures Named([e], name) == (if e.name == name then [e.value] else [])
  {
    assert [e][1..] == [];
  }

  /** The values under any one name, gathered part by part of the form. */
  lemma NamedForm(title: String, petition: File, items: seq<FileItem>, name: String)
    ensures Named(Form(title, petition, items), name) ==
      Named([FormEntry("title", TextField(title))], name)
      + (Named([FormEntry("petition_pdf", FileField(petition))], name)
      + (Named(SubsidyEntries(items), name)
      + Named([FormEntry("subsidy_descriptions", TextField(DescriptionsField(items)))], name)))
  {
    var e1 := [FormEntry("title", TextField(title))];
    var e2 := [FormEntry("petition_pdf", FileField(petition))];
    var e3 := [FormEntry("subsidy_descriptions", TextField(DescriptionsField(items)))];
    var middle := SubsidyEntries(items);
    assert Form(title, petition, items) == e1 + (e2 + (middle + e3));
    NamedAppend(e1, e2 + (middle + e3), name);
    NamedAppend(e2, middle + e3, name);
    NamedAppend(middle, e3, name);
  }

  /** What one name gathers from the form: whichever of the four parts carry that name. */
  lemma NamedFormBy(title: String, petition: File, items: seq<FileItem>, name: String)
    ensures Named(Form(title, petition, items), name) ==
      (if name == "title" then [TextField(title)] else [])
      + ((if name == "petition_pdf" then [FileField(petition)] else [])
      + ((if name == "subsidies" then Files(items) else [])
      + (if name == "subsidy_descriptions" then [TextField(DescriptionsField(items))] else [])))
  {
    NamedForm(title, petition, items, name);
    NamedSingle(FormEntry("title", TextField(title)), name);
    NamedSingle(FormEntry("petition_pdf", FileField(petition)), name);
    NamedSingle(FormEntry("subsidy_descriptions", TextField(DescriptionsField(items))), name);
    NamedSubsidies(items, name);
  }

  /** Each field name of the form carries what it should: the title once, the petition
      once, the supporting files in order, and the joined descriptions once. */
  lemma FormFields(title: String, petition: File, items: seq<FileItem>)
    ensures Named(Form(title, petition, items), "title") == [TextField(title)]
    ensures Named(Form(title, petition, items), "petition_pdf") == [FileField(petition)]
    ensures Named(Form(title, petition, items), "subsidies") == Files(items)
    ensures Named(Form(title, petition, items), "subsidy_descriptions") ==
      [TextField(DescriptionsField(items))]
  {
    NamedFormBy(title, petition, items, "title");
    NamedFormBy(title, petition, items, "petition_pdf");
    NamedFormBy(title, petition, items, "subsidies");
    NamedFormBy(title, petition, items, "subsidy_descriptions");
  }

  /** The server pairs the i-th supporting file with the i-th description, which is the
      description the user gave that file, provided no description holds a comma. */
  lemma SubsidyPairing(title: String, petition: File, items: seq<FileItem>, i: nat)
    requires i < |items|
    requires forall k | 0 <= k < |items| :: ',' !in items[k].description
    ensures |Named(Form(title, petition, items), "subsidies")| == |items|
      && Named(Form(title, petition, items), "subsidies")[i] == FileField(items[i].file)
    ensures |Split(DescriptionsField(items), ',')| == |items|
      && Split(DescriptionsField(items), ',')[i] == items[i].description
  {
    FormFields(title, petition, items);
    DescriptionsRoundTrip(items);
  }

  const NoPetition: String := "Selecione a petição inicial em PDF."
  const NoTitle: String := "Informe um título para a petição."
  const PdfOnly: String := "Somente arquivos PDF são aceitos para a petição."
  const SubmitFailed: String := "Erro ao enviar petição"
  const PdfType: String := "application/pdf"

  /** The checks `handleSubmit` makes before sending, in order: a petition first, then a
      non-blank title. */
  function SubmitError(petition: Option<File>, title: String): (e: Option<String>)
    ensures petition.None? ==> e == Some(NoPetition)
    ensures petition.Some? && IsBlank(title) ==> e == Some(NoTitle)
    ensures e.None? <==> petition.Some? && !IsBlank(title)
  {
    if petition.None? then Some(NoPetition)
    else if Trim(title) == [] then Some(NoTitle)
    else None
  }

  class UploadPage {
    var title: String
    var petition: Option<File>
    var subsidies: seq<FileItem>
    var dragging: bool
    var loading: bool
    var success: bool
    var error: String

    constructor()
      ensures title == [] && petition == None && subsidies == []
      ensures !dragging && !loading && !success && error == []
    {
      title := [];
      petition := None;
      subsidies := [];
      dragging := false;
      loading := false;
      success := false;
      error := [];
    }

    /** `setMainFile`: the petition, and a title taken from its name. */
    method SetMainFile(file: File)
      modifies this
      ensures petition == Some(file) && title == StripExtension(file.name)
      ensures subsidies == old(subsidies) && dragging == old(dragging) && loading == old(loading)
      ensures success == old(success) && error == old(error)
    {
      petition := Some(file);
      title := StripExtension(file.name);
    }

    method DragOver()
      modifies this
      ensures dragging
      ensures title == old(title) && petition == old(petition) && subsidies == old(subsidies)
      ensures loading == old(loading) && success == old(success) && error == old(error)
    {
      dragging := true;
    }

    method DragLeave()
      modifies this
      ensures !dragging
      ensures title == old(title) && petition == old(petition) && subsidies == old(subsidies)
      ensures loading == old(loading) && success == old(success) && error == old(error)
    {
      dragging := false;
    }

    /** `handleMainDrop`: only a PDF is taken; anything else, or no file, is refused. */
    method DropMain(files: seq<File>)
      modifies this
      ensures !dragging && subsidies == old(subsidies) && loading == old(loading) && success == old(success)
      ensures |files| > 0 && files[0].mime == PdfType ==>
        petition == Some(files[0]) && title == StripExtension(files[0].name) && error == old(error)
      ensures !(|files| > 0 && files[0].mime == PdfType) ==>
        petition == old(petition) && title == old(title) && error == PdfOnly
    {
      dragging := false;
      if |files| > 0 && files[0].mime == PdfType {
        SetMainFile(files[0]);
      } else {
        error := PdfOnly;
      }
    }

    /** The hidden file input of the drop zone. It takes the first chosen file without
        checking its type; only the picker's `.pdf` filter stands in the way. */
    method PickMain(files: Option<seq<File>>)
      modifies this
      ensures files.Some? && |files.value| > 0 ==>
        petition == Some(files.value[0]) && title == StripExtension(files.value[0].name)
      ensures !(files.Some? && |files.value| > 0) ==> petition == old(petition) && title == old(title)
      ensures subsidies == old(subsidies) && dragging == old(dragging) && loading == old(loading)
      ensures success == old(success) && error == old(error)
    {
      if files.Some? && |files.value| > 0 {
        SetMainFile(files.value[0]);
      }
    }

    /** The remove button of the chosen petition. The title suggested from its name stays. */
    method ClearMainFile()
      modifies this
      ensures petition == None
      ensures title == old(title) && subsidies == old(subsidies) && dragging == old(dragging)
      ensures loading == old(loading) && success == old(success) && error == old(error)
    {
      petition := None;
    }

    /** `handleSubsidyAdd`: newly chosen files go after those already listed. */
    method AddSubsidies(files: Option<seq<File>>)
      modifies this
      ensures subsidies == old(subsidies) + (if files.Some? then NewItems(files.value) else [])
      ensures title == old(title) && petition == old(petition) && dragging == old(dragging)
      ensures loading == old(loading) && success == old(success) && error == old(error)
    {
      if files.Some? {
        subsidies := subsidies + NewItems(files.value);
      }
    }

    /** `removeSubsidy`. */
    method RemoveSubsidy(idx: int)
      modifies this
      ensures subsidies == RemoveAt(old(subsidies), idx)
      ensures title == old(title) && petition == old(petition) && dragging == old(dragging)
      ensures loading == old(loading) && success == old(success) && error == old(error)
    {
      subsidies := RemoveAt(subsidies, idx);
    }

    /** `updateDesc`. */
    method UpdateDescription(idx: int, text: String)
      modifies this
      ensures subsidies == SetDescription(old(subsidies), idx, text)
      ensures title == old(title) && petition == old(petition) && dragging == old(dragging)
      ensures loading == old(loading) && success == old(success) && error == old(error)
    {
      subsidies := SetDescription(subsidies, idx, text);
    }

    /** `handleSubmit` up to the request. The submit button is disabled while sending and
        after a success, so nothing happens then; a failed check shows its message;
        otherwise the form is sent and the previous error cleared. */
    method BeginSubmit() returns (request: Option<Request>)
      modifies this
      ensures title == old(title) && petition == old(petition) && subsidies == old(subsidies)
      ensures dragging == old(dragging) && success == old(success)
      ensures old(loading) || old(success) ==> request == None && loading == old(loading) && error == old(error)
      ensures !old(loading) && !old(success) && SubmitError(petition, title).Some? ==>
        request == None && !loading && error == SubmitError(petition, title).value
      ensures request.Some? <==> !old(loading) && !old(success) && SubmitError(petition, title).None?
      ensures request.Some? ==>
        request.value == Upload(Form(title, petition.value, subsidies)) && loading && error == []
    {
      if loading || success {
        return None;
      }
      var problem := SubmitError(petition, title);
      if problem.Some? {
        error := problem.value;
        return None;
      }
      loading := true;
      error := [];
      request := Some(Upload(Form(title, petition.value, subsidies)));
    }

    /** `handleSubmit` after the request: on success the page reports it and schedules the
        move to the history page; on failure it shows the server's detail or a fallback. */
    method FinishSubmit(response: Response<()>) returns (redirect: Option<String>)
      modifies this
      ensures !loading
      ensures title == old(title) && petition == old(petition) && subsidies == old(subsidies)
      ensures dragging == old(dragging)
      ensures response.Ok? ==> success && error == old(error) && redirect == Some("/history")
      ensures response.Failed? ==>
        success == old(success) && error == ErrorText(response, SubmitFailed) && redirect == None
    {
      if response.Ok? {
        success := true;
        redirect := Some("/history");
      } else {
        error := ErrorText(response, SubmitFailed);
        redirect := None;
      }
      loading := false;
    }
  }
}
